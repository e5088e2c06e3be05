/** AgentsStatusProvider: subscriptions, the watchdog and reconnection with doubling backoff. */
module Provider {
  import opened Wrappers
  import opened Health
  import opened Aggregation
  import opened Agents

  // All times are in milliseconds; 0 is the epoch of the steady clock.
  const MAX_RECONNECT_DELAY := 30_000
  const WATCHDOG_INTERVAL := 15_000
  const WATCHDOG_TIMEOUT := 45_000
  const FIRST_EVENT_GRACE := 30_000
  const FIRST_RECONNECT_DELAY := 1_000
  const EPOCH := 0

  datatype ConnectionState = Connecting | Connected | Disconnected | Error

  /** The fields of a status event that parse; a malformed field hides itself and those after it. */
  datatype Payload = Payload(health: Option<Health>, disks: Option<seq<DiskInfo>>, lastRefreshed: Option<string>)

  datatype Signal =
    | ConnectionStateChanged(key: AgentKey, state: ConnectionState)
    | StatusChanged(key: AgentKey, health: Health)
    | DiskCollectionChanged(key: AgentKey, disks: seq<DiskInfo>)
    | LastRefreshedChanged(key: AgentKey, timestamp: string)

  /** AgentConnection; `hasSse` says that sseConnection was set, closed or not. */
  datatype Connection = Connection(
    hasSse: bool, lastEventTime: int, subscribedAt: int, reconnectDelay: int, connected: bool)

  const FRESH_CONNECTION := Connection(false, EPOCH, EPOCH, FIRST_RECONNECT_DELAY, false)

  /** A pending QTimer::singleShot. */
  datatype Timer = Timer(key: AgentKey, startedAt: int, delay: int) {
    function Due(): int { startedAt + delay }
  }

  datatype ProviderState = ProviderState(connections: map<AgentKey, Connection>, timers: multiset<Timer>)

  function Min(a: int, b: int): int {
    if a < b then a else b
  }

  function ConnectSse(p: ProviderState, key: AgentKey, now: int): ProviderState {
    if key in p.connections
    then p.(connections := p.connections[key := p.connections[key].(hasSse := true, subscribedAt := now)])
    else p
  }

  function Observe(p: ProviderState, key: AgentKey, now: int): ProviderState {
    if key in p.connections then p
    else ConnectSse(p.(connections := p.connections[key := FRESH_CONNECTION]), key, now)
  }

  function ObserveSignals(p: ProviderState, key: AgentKey): seq<Signal> {
    if key in p.connections then [] else [ConnectionStateChanged(key, Connecting)]
  }

  function Unobserve(p: ProviderState, key: AgentKey): ProviderState {
    p.(connections := p.connections - {key})
  }

  function HandleSseEvent(p: ProviderState, key: AgentKey, now: int): ProviderState {
    if key in p.connections
    then p.(connections := p.connections[key :=
      p.connections[key].(reconnectDelay := FIRST_RECONNECT_DELAY, lastEventTime := now, connected := true)])
    else p
  }

  function PayloadSignals(key: AgentKey, data: Payload): seq<Signal> {
    (if data.health.Some? then [StatusChanged(key, data.health.value)] else [])
    + (if data.disks.Some? then [DiskCollectionChanged(key, data.disks.value)] else [])
    + (if data.lastRefreshed.Some? then [LastRefreshedChanged(key, data.lastRefreshed.value)] else [])
  }

  function EventSignals(p: ProviderState, key: AgentKey, data: Payload): seq<Signal> {
    if key in p.connections then [ConnectionStateChanged(key, Connected)] + PayloadSignals(key, data) else []
  }

  function ScheduleSseReconnect(p: ProviderState, key: AgentKey, now: int): ProviderState {
    if key in p.connections then
      var delay := p.connections[key].reconnectDelay;
      p.(connections := p.connections[key :=
           p.connections[key].(reconnectDelay := Min(delay * 2, MAX_RECONNECT_DELAY))],
         timers := p.timers + multiset{Timer(key, now, delay)})
    else p
  }

  /** The two reasons for which the watchdog gives a connection up. */
  predicate TimedOut(c: Connection, now: int) {
    || (c.connected && now - c.lastEventTime > WATCHDOG_TIMEOUT)
    || (!c.connected && c.hasSse && c.subscribedAt != EPOCH && now - c.subscribedAt > FIRST_EVENT_GRACE)
  }

  /** The body of the loop of checkConnections. */
  function CheckConnection(p: ProviderState, key: AgentKey, now: int): ProviderState {
    if key in p.connections && TimedOut(p.connections[key], now)
    then ScheduleSseReconnect(
      p.(connections := p.connections[key := p.connections[key].(connected := false)]), key, now)
    else p
  }

  function CheckSignals(p: ProviderState, key: AgentKey, now: int): seq<Signal> {
    if key in p.connections && TimedOut(p.connections[key], now)
    then [ConnectionStateChanged(key, Disconnected)] else []
  }

  /** checkConnections visits the table in hash order, which the model takes as given. */
  function CheckConnections(p: ProviderState, order: seq<AgentKey>, now: int): ProviderState
    decreases |order|
  {
    if order == [] then p else CheckConnections(CheckConnection(p, order[0], now), order[1..], now)
  }

  function CheckAllSignals(p: ProviderState, order: seq<AgentKey>, now: int): seq<Signal>
    decreases |order|
  {
    if order == [] then []
    else CheckSignals(p, order[0], now) + CheckAllSignals(CheckConnection(p, order[0], now), order[1..], now)
  }

  /** The lambda of a reconnect timer that fires. */
  function TimerFires(p: ProviderState, timer: Timer, now: int): ProviderState {
    ConnectSse(p.(timers := p.timers - multiset{timer}), timer.key, now)
  }

  predicate Enumerates(order: seq<AgentKey>, keys: set<AgentKey>) {
    (forall i, j | 0 <= i < j < |order| :: order[i] != order[j]) && (set k | k in order) == keys
  }

  lemma {:induction false} CheckConnectionKeepsKeys(p: ProviderState, key: AgentKey, now: int)
    ensures CheckConnection(p, key, now).connections.Keys == p.connections.Keys
  {
  }

  lemma {:induction false} CheckConnectionsSnoc(p: ProviderState, order: seq<AgentKey>, key: AgentKey, now: int)
    ensures CheckConnections(p, order + [key], now) == CheckConnection(CheckConnections(p, order, now), key, now)
    ensures CheckAllSignals(p, order + [key], now)
            == CheckAllSignals(p, order, now) + CheckSignals(CheckConnections(p, order, now), key, now)
    decreases |order|
  {
    if order == [] {
      assert ([] + [key])[1..] == [];
    } else {
      assert (order + [key])[1..] == order[1..] + [key];
      CheckConnectionsSnoc(CheckConnection(p, order[0], now), order[1..], key, now);
    }
  }

  lemma {:induction false} CheckConnectionsPrefix(p: ProviderState, order: seq<AgentKey>, i: nat, now: int)
    requires i < |order|
    ensures CheckConnections(p, order[..i + 1], now)
            == CheckConnection(CheckConnections(p, order[..i], now), order[i], now)
    ensures CheckAllSignals(p, order[..i + 1], now)
            == CheckAllSignals(p, order[..i], now) + CheckSignals(CheckConnections(p, order[..i], now), order[i], now)
  {
    CheckConnectionsSnoc(p, order[..i], order[i], now);
    assert order[..i + 1] == order[..i] + [order[i]];
  }

  lemma {:induction false} EnumeratesOnly(order: seq<AgentKey>, keys: set<AgentKey>)
    requires Enumerates(order, keys)
    ensures forall k :: k in order <==> k in keys
  {
    assert forall k :: k in order <==> k in set x | x in order;
  }
}

/** AgentsStatusProvider as an object that updates its table in place. */
module StatusProviderObject {
  import opened Agents
  import opened P = Provider

  /** The object; `emitted` holds the signals the connected slots have not been called for yet. */
  class AgentsStatusProvider {
    var connections: map<AgentKey, Connection>
    var timers: multiset<Timer>
    var emitted: seq<Signal>

    function State(): ProviderState
      reads this
    {
      ProviderState(connections, timers)
    }

    constructor ()
      ensures State() == ProviderState(map[], multiset{}) && emitted == []
    {
      connections, timers, emitted := map[], multiset{}, [];
    }

    method ConnectSse(key: AgentKey, now: int)
      modifies this`connections
      ensures State() == P.ConnectSse(old(State()), key, now)
    {
      if key !in connections {
        return;
      }
      connections := connections[key := connections[key].(subscribedAt := now)];
      connections := connections[key := connections[key].(hasSse := true)];
    }

    method Observe(key: AgentKey, now: int)
      modifies this
      ensures State() == P.Observe(old(State()), key, now)
      ensures emitted == old(emitted) + ObserveSignals(old(State()), key)
    {
      if key in connections {
        return;
      }
      connections := connections[key := FRESH_CONNECTION];
      emitted := emitted + [ConnectionStateChanged(key, Connecting)];
      ConnectSse(key, now);
    }

    method Unobserve(key: AgentKey)
      modifies this`connections
      ensures State() == P.Unobserve(old(State()), key)
    {
      connections := connections - {key};
    }

    method HandleSseEvent(key: AgentKey, data: Payload, now: int)
      modifies this
      ensures State() == P.HandleSseEvent(old(State()), key, now)
      ensures emitted == old(emitted) + EventSignals(old(State()), key, data)
    {
      if key !in connections {
        return;
      }
      connections := connections[key := connections[key].(reconnectDelay := FIRST_RECONNECT_DELAY)];
      connections := connections[key := connections[key].(lastEventTime := now)];
      connections := connections[key := connections[key].(connected := true)];
      emitted := emitted + [ConnectionStateChanged(key, Connected)];
      emitted := emitted + PayloadSignals(key, data);
    }

    method ScheduleSseReconnect(key: AgentKey, now: int)
      modifies this`connections, this`timers
      ensures State() == P.ScheduleSseReconnect(old(State()), key, now)
    {
      if key !in connections {
        return;
      }
      var delay := connections[key].reconnectDelay;
      connections := connections[key := connections[key].(reconnectDelay := Min(delay * 2, MAX_RECONNECT_DELAY))];
      timers := timers + multiset{Timer(key, now, delay)};
    }

    /** The loop body of checkConnections. */
    method CheckConnection(key: AgentKey, now: int)
      requires key in connections
      modifies this
      ensures State() == P.CheckConnection(old(State()), key, now)
      ensures emitted == old(emitted) + CheckSignals(old(State()), key, now)
    {
      var conn := connections[key];
      var eventTimedOut := conn.connected && now - conn.lastEventTime > WATCHDOG_TIMEOUT;
      var firstEventNeverArrived := !conn.connected && conn.hasSse && conn.subscribedAt != EPOCH
                                    && now - conn.subscribedAt > FIRST_EVENT_GRACE;
      if eventTimedOut || firstEventNeverArrived {
        connections := connections[key := conn.(connected := false)];
        emitted := emitted + [ConnectionStateChanged(key, Disconnected)];
        ScheduleSseReconnect(key, now);
      }
    }

    method CheckConnections(order: seq<AgentKey>, now: int)
      requires Enumerates(order, connections.Keys)
      modifies this
      ensures State() == P.CheckConnections(old(State()), order, now)
      ensures emitted == old(emitted) + CheckAllSignals(old(State()), order, now)
    {
      EnumeratesOnly(order, connections.Keys);
      for i := 0 to |order|
        invariant State() == P.CheckConnections(old(State()), order[..i], now)
        invariant emitted == old(emitted) + CheckAllSignals(old(State()), order[..i], now)
        invariant forall k | k in order :: k in connections
      {
        CheckConnectionsPrefix(old(State()), order, i, now);
        CheckConnectionKeepsKeys(State(), order[i], now);
        CheckConnection(order[i], now);
      }
      assert order[..|order|] == order;
    }

    method ReconnectTimerFired(timer: Timer, now: int)
      requires timer in timers
      modifies this`connections, this`timers
      ensures State() == TimerFires(old(State()), timer, now)
    {
      timers := timers - multiset{timer};
      if timer.key in connections {
        ConnectSse(timer.key, now);
      }
    }
  }
}
