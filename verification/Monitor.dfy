/**
 The monitor: provider and list composed, in discrete time.  Time never passes a watchdog tick or the moment a
 reconnect timer is due; status events may arrive at any time, late ones from closed connections included.
 */
module Monitor {
  import opened Agents
  import opened Provider
  import opened ListModel

  datatype Monitor = Monitor(
    now: int,
    nextTick: int,            // when the watchdog fires next
    provider: ProviderState,
    list: ListState,
    view: seq<Row>,           // what a view shows that only replays the model signals
    log: seq<Signal>)         // every signal the provider has emitted

  datatype Action =
    | Advance(elapsed: nat)
    | WatchdogTick(order: seq<AgentKey>)
    | ReconnectTimer(timer: Timer)
    | SseEvent(key: AgentKey, data: Payload)
    | AgentFound(info: AgentInformation)   // from discovery, from the user, or restored
    | AgentLost(info: AgentInformation)    // from discovery
    | RemoveRow(position: int)             // from the user

  function Initial(now: int): Monitor {
    Monitor(now, now + WATCHDOG_INTERVAL, ProviderState(map[], multiset{}),
            ListState([], map[], map[], map[], map[]), [], [])
  }

  predicate Enabled(m: Monitor, a: Action) {
    match a
    case Advance(elapsed) =>
      m.now + elapsed <= m.nextTick && forall t | t in m.provider.timers :: m.now + elapsed <= t.Due()
    case WatchdogTick(order) => m.now == m.nextTick && Enumerates(order, m.provider.connections.Keys)
    case ReconnectTimer(timer) => timer in m.provider.timers && timer.Due() == m.now
    case SseEvent(_, _) => true
    case AgentFound(_) => true
    case AgentLost(info) => info.source == ZeroConf
    case RemoveRow(_) => true
  }

  /** The slots run, the view follows, the log grows. */
  function Deliver(m: Monitor, ss: seq<Signal>): Monitor {
    m.(list := Slots(m.list, ss), view := ReplayAll(m.view, SlotsChanges(m.list, ss)), log := m.log + ss)
  }

  function AddAgentTo(m: Monitor, info: AgentInformation): Monitor {
    var m' := m.(list := AddAgent(m.list, info), view := ReplayAll(m.view, AddChanges(m.list, info)));
    if Lists(m.list, info.key) then m'
    else Deliver(m'.(provider := Observe(m.provider, info.key, m.now)), ObserveSignals(m.provider, info.key))
  }

  function RemoveAt(m: Monitor, at: nat): Monitor
    requires at < |m.list.agents|
  {
    m.(list := RemoveAgentAt(m.list, at), view := ReplayAll(m.view, [RowRemoved(at)]),
       provider := Unobserve(m.provider, m.list.agents[at].key))
  }

  function Step(m: Monitor, a: Action): Monitor
    requires Enabled(m, a)
  {
    match a
    case Advance(elapsed) => m.(now := m.now + elapsed)
    case WatchdogTick(order) =>
      Deliver(m.(provider := CheckConnections(m.provider, order, m.now), nextTick := m.nextTick + WATCHDOG_INTERVAL),
              CheckAllSignals(m.provider, order, m.now))
    case ReconnectTimer(timer) => m.(provider := TimerFires(m.provider, timer, m.now))
    case SseEvent(key, data) =>
      Deliver(m.(provider := HandleSseEvent(m.provider, key, m.now)), EventSignals(m.provider, key, data))
    case AgentFound(info) => AddAgentTo(m, info)
    case AgentLost(info) => if Removable(m.list, info) then RemoveAt(m, IndexOf(m.list.agents, info.key)) else m
    case RemoveRow(position) => if 0 <= position < |m.list.agents| then RemoveAt(m, position) else m
  }

  predicate IsRun(m: Monitor, actions: seq<Action>)
    decreases |actions|
  {
    actions == [] || (Enabled(m, actions[0]) && IsRun(Step(m, actions[0]), actions[1..]))
  }

  function After(m: Monitor, actions: seq<Action>): Monitor
    requires IsRun(m, actions)
    decreases |actions|
  {
    if actions == [] then m else After(Step(m, actions[0]), actions[1..])
  }

  ghost predicate Reachable(m: Monitor) {
    exists start, actions :: start > EPOCH && IsRun(Initial(start), actions) && m == After(Initial(start), actions)
  }
}

/** Timers and subscriptions: no observed agent is abandoned, no identity piles up timers. */
module MonitorTiming {
  import opened Agents
  import L = ListModel
  import opened Provider
  import opened Monitor

  /** Subscribing again takes at most this long while no event arrives. */
  const RESUBSCRIBE_LIMIT := FIRST_EVENT_GRACE + WATCHDOG_INTERVAL + MAX_RECONNECT_DELAY

  predicate TimerFor(timers: multiset<Timer>, t: Timer, key: AgentKey, limit: int) {
    t in timers && t.key == key && t.Due() <= limit
  }

  /** A reconnect of `key` is due by `limit`. */
  ghost predicate TimerBy(timers: multiset<Timer>, key: AgentKey, limit: int) {
    exists t :: TimerFor(timers, t, key, limit)
  }

  predicate ClockOk(c: Connection, now: int, lastTick: int) {
    && c.hasSse && EPOCH < c.subscribedAt <= now
    && c.lastEventTime <= now
    && FIRST_RECONNECT_DELAY <= c.reconnectDelay <= MAX_RECONNECT_DELAY
    && (c.connected ==> c.reconnectDelay == FIRST_RECONNECT_DELAY && lastTick - c.lastEventTime <= WATCHDOG_TIMEOUT)
  }

  /** What the latest watchdog tick has left of one connection. */
  ghost predicate ConnectionOk(c: Connection, key: AgentKey, timers: multiset<Timer>, now: int, lastTick: int) {
    && ClockOk(c, now, lastTick)
    && (!c.connected ==>
          lastTick - c.subscribedAt <= FIRST_EVENT_GRACE || TimerBy(timers, key, now + MAX_RECONNECT_DELAY))
    && (!c.connected && c.lastEventTime <= c.subscribedAt ==>
          lastTick - c.subscribedAt <= FIRST_EVENT_GRACE || TimerBy(timers, key, c.subscribedAt + RESUBSCRIBE_LIMIT))
  }

  /** Every pending timer was started by a tick of the last 30 s, and a tick starts one timer per agent at most. */
  predicate TimerOk(t: Timer, now: int, lastTick: int) {
    && FIRST_RECONNECT_DELAY <= t.delay <= MAX_RECONNECT_DELAY
    && t.startedAt <= lastTick
    && (lastTick - t.startedAt) % WATCHDOG_INTERVAL == 0
    && now <= t.Due()
  }

  ghost predicate TimersOk(timers: multiset<Timer>, now: int, lastTick: int) {
    && (forall t | t in timers :: timers[t] == 1 && TimerOk(t, now, lastTick))
    && (forall t, u | t in timers && u in timers && t.key == u.key && t.startedAt == u.startedAt :: t == u)
  }

  ghost predicate ProviderOk(p: ProviderState, now: int, lastTick: int) {
    && EPOCH < now && lastTick <= now <= lastTick + WATCHDOG_INTERVAL
    && TimersOk(p.timers, now, lastTick)
    && forall key | key in p.connections :: ConnectionOk(p.connections[key], key, p.timers, now, lastTick)
  }

  // ---- the watchdog --------------------------------------------------------------------------------------

  /** Timers may be added to the pool without hurting anyone. */
  lemma {:induction false} MoreTimersOk(c: Connection, key: AgentKey, fewer: multiset<Timer>, more: multiset<Timer>,
      now: int, lastTick: int)
    requires ConnectionOk(c, key, fewer, now, lastTick) && fewer <= more
    ensures ConnectionOk(c, key, more, now, lastTick)
  {
    forall t, limit | TimerFor(fewer, t, key, limit) ensures TimerFor(more, t, key, limit) {
    }
  }

  /** One connection at a tick: kept, or given up with a new timer. */
  lemma {:induction false} TickConnection(c: Connection, key: AgentKey, timers: multiset<Timer>, now: int)
    requires ConnectionOk(c, key, timers, now, now - WATCHDOG_INTERVAL)
    ensures !TimedOut(c, now) ==> ConnectionOk(c, key, timers, now, now)
    ensures TimedOut(c, now) ==>
              ConnectionOk(c.(connected := false,
                              reconnectDelay := Min(c.reconnectDelay * 2, MAX_RECONNECT_DELAY)), key,
                           timers + multiset{Timer(key, now, c.reconnectDelay)}, now, now)
  {
    if TimedOut(c, now) {
      var started := Timer(key, now, c.reconnectDelay);
      var more := timers + multiset{started};
      assert TimerFor(more, started, key, now + MAX_RECONNECT_DELAY);
      if c.lastEventTime <= c.subscribedAt {
        if c.connected || now - WATCHDOG_INTERVAL - c.subscribedAt <= FIRST_EVENT_GRACE {
          assert TimerFor(more, started, key, c.subscribedAt + RESUBSCRIBE_LIMIT);
        } else {
          var t :| TimerFor(timers, t, key, c.subscribedAt + RESUBSCRIBE_LIMIT);
          assert TimerFor(more, t, key, c.subscribedAt + RESUBSCRIBE_LIMIT);
        }
      }
    }
  }

  ghost predicate Unscheduled(timers: multiset<Timer>, key: AgentKey, now: int) {
    forall t | t in timers && t.key == key :: t.startedAt != now
  }

  lemma {:induction false} CheckConnectionTimers(p: ProviderState, key: AgentKey, now: int)
    requires TimersOk(p.timers, now, now) && Unscheduled(p.timers, key, now)
    requires key in p.connections && FIRST_RECONNECT_DELAY <= p.connections[key].reconnectDelay <= MAX_RECONNECT_DELAY
    ensures TimersOk(CheckConnection(p, key, now).timers, now, now)
    ensures forall k | k != key && Unscheduled(p.timers, k, now) ::
              Unscheduled(CheckConnection(p, key, now).timers, k, now)
  {
  }

  lemma {:induction false} CheckConnectionOthers(p: ProviderState, key: AgentKey, k: AgentKey, now: int, lastTick: int)
    requires k in p.connections && k != key && ConnectionOk(p.connections[k], k, p.timers, now, lastTick)
    ensures var p' := CheckConnection(p, key, now);
            k in p'.connections && ConnectionOk(p'.connections[k], k, p'.timers, now, lastTick)
  {
    MoreTimersOk(p.connections[k], k, p.timers, CheckConnection(p, key, now).timers, now, lastTick);
  }

  /** A tick checks every connection once, in any order. */
  lemma {:induction false} TickKeeps(p: ProviderState, order: seq<AgentKey>, now: int)
    requires forall i, j | 0 <= i < j < |order| :: order[i] != order[j]
    requires TimersOk(p.timers, now, now)
    requires forall k | k in p.connections ::
               ConnectionOk(p.connections[k], k, p.timers, now, if k in order then now - WATCHDOG_INTERVAL else now)
    requires forall k | k in order :: k in p.connections && Unscheduled(p.timers, k, now)
    ensures var p' := CheckConnections(p, order, now);
            && TimersOk(p'.timers, now, now)
            && p'.connections.Keys == p.connections.Keys
            && forall k | k in p'.connections :: ConnectionOk(p'.connections[k], k, p'.timers, now, now)
    decreases |order|
  {
    if order != [] {
      var key, rest := order[0], order[1..];
      var p1 := CheckConnection(p, key, now);
      assert forall k :: k in order <==> k == key || k in rest;
      assert key !in rest;
      CheckConnectionKeepsKeys(p, key, now);
      TickConnection(p.connections[key], key, p.timers, now);
      CheckConnectionTimers(p, key, now);
      forall k | k in p1.connections
        ensures ConnectionOk(p1.connections[k], k, p1.timers, now, if k in rest then now - WATCHDOG_INTERVAL else now)
      {
        if k != key {
          CheckConnectionOthers(p, key, k, now, if k in rest then now - WATCHDOG_INTERVAL else now);
        }
      }
      TickKeeps(p1, rest, now);
    }
  }

  // ---- the other steps -----------------------------------------------------------------------------------

  lemma {:induction false} AdvanceKeeps(p: ProviderState, now: int, lastTick: int, elapsed: nat)
    requires ProviderOk(p, now, lastTick) && now + elapsed <= lastTick + WATCHDOG_INTERVAL
    requires forall t | t in p.timers :: now + elapsed <= t.Due()
    ensures ProviderOk(p, now + elapsed, lastTick)
  {
    forall key | key in p.connections
      ensures ConnectionOk(p.connections[key], key, p.timers, now + elapsed, lastTick)
    {
      var c := p.connections[key];
      if TimerBy(p.timers, key, now + MAX_RECONNECT_DELAY) {
        var t :| TimerFor(p.timers, t, key, now + MAX_RECONNECT_DELAY);
        assert TimerFor(p.timers, t, key, now + elapsed + MAX_RECONNECT_DELAY);
      }
    }
  }

  lemma {:induction false} TimerKeeps(p: ProviderState, timer: Timer, now: int, lastTick: int)
    requires ProviderOk(p, now, lastTick) && timer in p.timers
    ensures ProviderOk(TimerFires(p, timer, now), now, lastTick)
  {
    var p' := TimerFires(p, timer, now);
    forall key | key in p'.connections ensures ConnectionOk(p'.connections[key], key, p'.timers, now, lastTick) {
      if key != timer.key {
        forall t, limit | TimerFor(p.timers, t, key, limit) ensures TimerFor(p'.timers, t, key, limit) {
        }
      }
    }
  }

  lemma {:induction false} ObserveKeeps(p: ProviderState, key: AgentKey, now: int, lastTick: int)
    requires ProviderOk(p, now, lastTick)
    ensures ProviderOk(Observe(p, key, now), now, lastTick)
  {
  }

  ghost predicate TimingOk(m: Monitor) {
    ProviderOk(m.provider, m.now, m.nextTick - WATCHDOG_INTERVAL)
  }

  lemma {:induction false} TimingKept(m: Monitor, a: Action)
    requires TimingOk(m) && Enabled(m, a)
    ensures TimingOk(Step(m, a))
  {
    match a
    case Advance(elapsed) => AdvanceTiming(m, elapsed);
    case WatchdogTick(order) => WatchdogKeeps(m, order);
    case ReconnectTimer(timer) => TimerTiming(m, timer);
    case SseEvent(key, data) => EventTiming(m, key, data);
    case AgentFound(info) => FoundTiming(m, info);
    case AgentLost(info) => if L.Removable(m.list, info) { RemovalKeeps(m, IndexOf(m.list.agents, info.key)); }
    case RemoveRow(position) => if 0 <= position < |m.list.agents| { RemovalKeeps(m, position); }
  }

  lemma {:induction false} AdvanceTiming(m: Monitor, elapsed: nat)
    requires TimingOk(m) && Enabled(m, Advance(elapsed))
    ensures TimingOk(Step(m, Advance(elapsed)))
  {
    AdvanceKeeps(m.provider, m.now, m.nextTick - WATCHDOG_INTERVAL, elapsed);
  }

  lemma {:induction false} TimerTiming(m: Monitor, timer: Timer)
    requires TimingOk(m) && Enabled(m, ReconnectTimer(timer))
    ensures TimingOk(Step(m, ReconnectTimer(timer)))
  {
    TimerKeeps(m.provider, timer, m.now, m.nextTick - WATCHDOG_INTERVAL);
  }

  lemma {:induction false} EventTiming(m: Monitor, key: AgentKey, data: Payload)
    requires TimingOk(m)
    ensures TimingOk(Step(m, SseEvent(key, data)))
  {
  }

  lemma {:induction false} FoundTiming(m: Monitor, info: AgentInformation)
    requires TimingOk(m)
    ensures TimingOk(Step(m, AgentFound(info)))
  {
    ObserveKeeps(m.provider, info.key, m.now, m.nextTick - WATCHDOG_INTERVAL);
  }

  lemma {:induction false} RemovalKeeps(m: Monitor, at: nat)
    requires TimingOk(m) && at < |m.list.agents|
    ensures TimingOk(RemoveAt(m, at))
  {
  }

  lemma {:induction false} WatchdogKeeps(m: Monitor, order: seq<AgentKey>)
    requires TimingOk(m) && Enabled(m, WatchdogTick(order))
    ensures TimingOk(Step(m, WatchdogTick(order)))
  {
    TickKeepsProvider(m.provider, order, m.now);
    NextTick(m, order);
    DeliverTiming(m.(provider := CheckConnections(m.provider, order, m.now),
                     nextTick := m.nextTick + WATCHDOG_INTERVAL),
                  CheckAllSignals(m.provider, order, m.now));
  }

  lemma {:induction false} NextTick(m: Monitor, order: seq<AgentKey>)
    requires m.now == m.nextTick && ProviderOk(CheckConnections(m.provider, order, m.now), m.now, m.now)
    ensures TimingOk(m.(provider := CheckConnections(m.provider, order, m.now),
                        nextTick := m.nextTick + WATCHDOG_INTERVAL))
  {
  }

  lemma {:induction false} DeliverTiming(m: Monitor, ss: seq<Signal>)
    requires TimingOk(m)
    ensures TimingOk(Deliver(m, ss))
  {
  }

  lemma {:induction false} TickKeepsProvider(p: ProviderState, order: seq<AgentKey>, now: int)
    requires ProviderOk(p, now, now - WATCHDOG_INTERVAL) && Enumerates(order, p.connections.Keys)
    ensures ProviderOk(CheckConnections(p, order, now), now, now)
  {
    EnumeratesOnly(order, p.connections.Keys);
    TimersBeforeTick(p.timers, order, now);
    forall k | k in p.connections
      ensures ConnectionOk(p.connections[k], k, p.timers, now, if k in order then now - WATCHDOG_INTERVAL else now)
    {
    }
    TickKeeps(p, order, now);
  }

  lemma {:induction false} TimersBeforeTick(timers: multiset<Timer>, order: seq<AgentKey>, now: int)
    requires TimersOk(timers, now, now - WATCHDOG_INTERVAL)
    ensures TimersOk(timers, now, now)
    ensures forall k | k in order :: Unscheduled(timers, k, now)
  {
    forall t | t in timers ensures TimerOk(t, now, now) && t.startedAt < now {
      assert TimerOk(t, now, now - WATCHDOG_INTERVAL);
    }
  }

  // ---- how many timers -----------------------------------------------------------------------------------

  /** The pending reconnects of one agent identity. */
  ghost function TimersOf(timers: multiset<Timer>, key: AgentKey): set<Timer> {
    set t | t in timers && t.key == key
  }

  lemma {:induction false} AtMostThreeTimers(timers: multiset<Timer>, key: AgentKey, now: int, lastTick: int)
    requires TimersOk(timers, now, lastTick) && lastTick <= now
    ensures |TimersOf(timers, key)| <= 3
  {
    var starts := {lastTick, lastTick - WATCHDOG_INTERVAL, lastTick - 2 * WATCHDOG_INTERVAL};
    forall t | t in TimersOf(timers, key) ensures t.startedAt in starts {
      assert TimerOk(t, now, lastTick);
    }
    CardInjective(TimersOf(timers, key), starts);
  }

  lemma {:induction false} CardInjective(ts: set<Timer>, starts: set<int>)
    requires forall t | t in ts :: t.startedAt in starts
    requires forall t, u | t in ts && u in ts && t.startedAt == u.startedAt :: t == u
    ensures |ts| <= |starts|
    decreases ts
  {
    if ts != {} {
      var t :| t in ts;
      CardInjective(ts - {t}, starts - {t.startedAt});
    }
  }
}
