/** The list mirrors the provider, views mirror the list, and the backoff mirrors the history. */
module MonitorMirror {
  import opened Agents
  import opened Provider
  import opened ListModel
  import opened Monitor

  /** Side tables speak of listed agents only. */
  predicate TablesOk(l: ListState) {
    && DistinctKeys(l.agents)
    && l.health.Keys <= Keys(l.agents) && l.disks.Keys <= Keys(l.agents)
    && l.states.Keys <= Keys(l.agents) && l.refreshed.Keys <= Keys(l.agents)
  }

  /** An agent shows Connected exactly when its connection flag is set. */
  predicate ShownOk(p: ProviderState, l: ListState, key: AgentKey) {
    key in p.connections ==> key in l.states && (l.states[key] == Connected <==> p.connections[key].connected)
  }

  ghost predicate Mirrors(p: ProviderState, l: ListState) {
    && TablesOk(l)
    && Keys(l.agents) == p.connections.Keys
    && forall key | key in p.connections :: ShownOk(p, l, key)
  }

  lemma {:induction false} ListsIffKey(l: ListState, key: AgentKey)
    ensures Lists(l, key) <==> key in Keys(l.agents)
  {
    if key in Keys(l.agents) {
      var a :| a in l.agents && a.key == key;
    }
  }

  lemma {:induction false} SlotKeepsTables(l: ListState, s: Signal)
    requires TablesOk(l)
    ensures TablesOk(Slot(l, s)) && Slot(l, s).agents == l.agents
    ensures var l' := Slot(l, s);
            if s.ConnectionStateChanged? && s.key in Keys(l.agents) then l'.states == l.states[s.key := s.state]
            else l'.states == l.states
  {
    ListsIffKey(l, s.key);
  }

  lemma {:induction false} QuietSlotsKeepStates(l: ListState, ss: seq<Signal>)
    requires TablesOk(l) && forall s | s in ss :: !s.ConnectionStateChanged?
    ensures var l' := Slots(l, ss); TablesOk(l') && l'.agents == l.agents && l'.states == l.states
    decreases |ss|
  {
    if ss != [] {
      SlotKeepsTables(l, ss[0]);
      QuietSlotsKeepStates(Slot(l, ss[0]), ss[1..]);
    }
  }

  /** A change of state followed by signals of other kinds. */
  lemma {:induction false} StateThenQuiet(l: ListState, key: AgentKey, state: ConnectionState, quiet: seq<Signal>)
    requires TablesOk(l) && key in Keys(l.agents) && forall s | s in quiet :: !s.ConnectionStateChanged?
    ensures var l' := Slots(l, [ConnectionStateChanged(key, state)] + quiet);
            TablesOk(l') && l'.agents == l.agents && l'.states == l.states[key := state]
  {
    var first := ConnectionStateChanged(key, state);
    assert ([first] + quiet)[1..] == quiet;
    SlotKeepsTables(l, first);
    QuietSlotsKeepStates(Slot(l, first), quiet);
  }

  lemma {:induction false} PayloadIsQuiet(key: AgentKey, data: Payload)
    ensures forall s | s in PayloadSignals(key, data) :: !s.ConnectionStateChanged?
  {
  }

  lemma {:induction false} CheckMirrors(p: ProviderState, l: ListState, key: AgentKey, now: int)
    requires Mirrors(p, l)
    ensures Mirrors(CheckConnection(p, key, now), Slots(l, CheckSignals(p, key, now)))
    ensures CheckConnection(p, key, now).connections.Keys == p.connections.Keys
  {
    if key in p.connections && TimedOut(p.connections[key], now) {
      var quiet: seq<Signal> := [];
      assert [ConnectionStateChanged(key, Disconnected)] + quiet == CheckSignals(p, key, now);
      StateThenQuiet(l, key, Disconnected, quiet);
      var l' := Slots(l, CheckSignals(p, key, now));
      forall k | k in p.connections ensures ShownOk(CheckConnection(p, key, now), l', k) {
        assert ShownOk(p, l, k);
      }
    }
  }

  lemma {:induction false} TickMirrors(p: ProviderState, l: ListState, order: seq<AgentKey>, now: int)
    requires Mirrors(p, l)
    ensures Mirrors(CheckConnections(p, order, now), Slots(l, CheckAllSignals(p, order, now)))
    decreases |order|
  {
    if order != [] {
      var p1 := CheckConnection(p, order[0], now);
      CheckMirrors(p, l, order[0], now);
      TickMirrors(p1, Slots(l, CheckSignals(p, order[0], now)), order[1..], now);
      SlotsConcat(l, CheckSignals(p, order[0], now), CheckAllSignals(p1, order[1..], now));
    }
  }

  lemma {:induction false} EventMirrors(p: ProviderState, l: ListState, key: AgentKey, data: Payload, now: int)
    requires Mirrors(p, l)
    ensures Mirrors(HandleSseEvent(p, key, now), Slots(l, EventSignals(p, key, data)))
  {
    if key in p.connections {
      PayloadIsQuiet(key, data);
      StateThenQuiet(l, key, Connected, PayloadSignals(key, data));
      var p', l' := HandleSseEvent(p, key, now), Slots(l, EventSignals(p, key, data));
      forall k | k in p.connections ensures ShownOk(p', l', k) {
      }
    }
  }

  lemma {:induction false} AddMirrors(m: Monitor, info: AgentInformation)
    requires Mirrors(m.provider, m.list)
    ensures Mirrors(AddAgentTo(m, info).provider, AddAgentTo(m, info).list)
  {
    if !Lists(m.list, info.key) {
      NewAgentMirrors(m, info);
    } else {
      AddKeys(m.list, info);
      ListsIffKey(m.list, info.key);
      forall k | k in m.provider.connections ensures ShownOk(m.provider, AddAgent(m.list, info), k) {
        assert ShownOk(m.provider, m.list, k);
      }
    }
  }

  lemma {:induction false} ObserveConnections(p: ProviderState, key: AgentKey, now: int)
    requires key !in p.connections
    ensures Observe(p, key, now).connections
            == p.connections[key := FRESH_CONNECTION.(hasSse := true, subscribedAt := now)]
  {
  }

  lemma {:induction false} NewAgentSlots(l: ListState, info: AgentInformation, p: ProviderState)
    requires TablesOk(l) && !Lists(l, info.key) && info.key !in p.connections
    ensures var l' := AddAgent(l, info);
            var shown := Slots(l', ObserveSignals(p, info.key));
            TablesOk(shown) && shown.agents == l'.agents && shown.states == l.states[info.key := Connecting]
  {
    AddKeys(l, info);
    var quiet: seq<Signal> := [];
    assert [ConnectionStateChanged(info.key, Connecting)] + quiet == ObserveSignals(p, info.key);
    StateThenQuiet(AddAgent(l, info), info.key, Connecting, quiet);
  }

  lemma {:induction false} NewAgentMirrors(m: Monitor, info: AgentInformation)
    requires Mirrors(m.provider, m.list) && !Lists(m.list, info.key)
    ensures Mirrors(AddAgentTo(m, info).provider, AddAgentTo(m, info).list)
  {
    ListsIffKey(m.list, info.key);
    AddKeys(m.list, info);
    ObserveConnections(m.provider, info.key, m.now);
    NewAgentSlots(m.list, info, m.provider);
    var p', l' := Observe(m.provider, info.key, m.now), AddAgentTo(m, info).list;
    forall k | k in p'.connections ensures ShownOk(p', l', k) {
      NewAgentShown(m.provider, m.list, p', l', info.key, k);
    }
  }

  lemma {:induction false} NewAgentShown(p: ProviderState, l: ListState, p': ProviderState, l': ListState,
      key: AgentKey, k: AgentKey)
    requires forall other | other in p.connections :: ShownOk(p, l, other)
    requires key in p'.connections && !p'.connections[key].connected
    requires p'.connections == p.connections[key := p'.connections[key]]
    requires l'.states == l.states[key := Connecting] && k in p'.connections
    ensures ShownOk(p', l', k)
  {
  }

  lemma {:induction false} RemoveMirrors(m: Monitor, at: nat)
    requires Mirrors(m.provider, m.list) && at < |m.list.agents|
    ensures Mirrors(RemoveAt(m, at).provider, RemoveAt(m, at).list)
  {
    RemoveKeys(m.list, at);
    var m' := RemoveAt(m, at);
    forall k | k in m'.provider.connections ensures ShownOk(m'.provider, m'.list, k) {
      assert ShownOk(m.provider, m.list, k);
    }
  }

  lemma {:induction false} MirrorKept(m: Monitor, a: Action)
    requires Mirrors(m.provider, m.list) && Enabled(m, a)
    ensures Mirrors(Step(m, a).provider, Step(m, a).list)
  {
    match a
    case WatchdogTick(order) => TickMirrors(m.provider, m.list, order, m.now);
    case ReconnectTimer(timer) => TimerMirrors(m.provider, m.list, timer, m.now);
    case SseEvent(key, data) => EventMirrors(m.provider, m.list, key, data, m.now);
    case AgentFound(info) => AddMirrors(m, info);
    case AgentLost(info) => if Removable(m.list, info) { RemoveMirrors(m, IndexOf(m.list.agents, info.key)); }
    case RemoveRow(position) => if 0 <= position < |m.list.agents| { RemoveMirrors(m, position); }
    case Advance(_) =>
  }

  lemma {:induction false} TimerMirrors(p: ProviderState, l: ListState, timer: Timer, now: int)
    requires Mirrors(p, l)
    ensures Mirrors(TimerFires(p, timer, now), l)
  {
    forall k | k in p.connections ensures ShownOk(TimerFires(p, timer, now), l, k) {
      assert ShownOk(p, l, k);
    }
  }

  // ---- the view ------------------------------------------------------------------------------------------

  predicate ViewOk(m: Monitor) {
    DistinctKeys(m.list.agents) && m.view == Rows(m.list)
  }

  lemma {:induction false} DeliverFollowed(m: Monitor, ss: seq<Signal>)
    requires ViewOk(m)
    ensures ViewOk(Deliver(m, ss))
  {
    SlotsFollowed(m.list, ss);
  }

  lemma {:induction false} ViewKept(m: Monitor, a: Action)
    requires ViewOk(m) && Enabled(m, a)
    ensures ViewOk(Step(m, a))
  {
    match a
    case WatchdogTick(order) =>
      DeliverFollowed(m.(provider := CheckConnections(m.provider, order, m.now),
                         nextTick := m.nextTick + WATCHDOG_INTERVAL),
                      CheckAllSignals(m.provider, order, m.now));
    case SseEvent(key, data) =>
      DeliverFollowed(m.(provider := HandleSseEvent(m.provider, key, m.now)), EventSignals(m.provider, key, data));
    case AgentFound(info) => AddViewed(m, info);
    case AgentLost(info) => if Removable(m.list, info) { RemoveViewed(m, IndexOf(m.list.agents, info.key)); }
    case RemoveRow(position) => if 0 <= position < |m.list.agents| { RemoveViewed(m, position); }
    case _ =>
  }

  lemma {:induction false} AddViewed(m: Monitor, info: AgentInformation)
    requires ViewOk(m)
    ensures ViewOk(AddAgentTo(m, info))
  {
    var m' := m.(list := AddAgent(m.list, info), view := ReplayAll(m.view, AddChanges(m.list, info)));
    AddFollowed(m.list, info);
    AddKeys(m.list, info);
    if !Lists(m.list, info.key) {
      DeliverFollowed(m'.(provider := Observe(m.provider, info.key, m.now)), ObserveSignals(m.provider, info.key));
    }
  }

  lemma {:induction false} RemoveViewed(m: Monitor, at: nat)
    requires ViewOk(m) && at < |m.list.agents|
    ensures ViewOk(RemoveAt(m, at))
  {
    RemoveFollowed(m.list, at);
    RemoveKeys(m.list, at);
  }

  // ---- backoff -------------------------------------------------------------------------------------------

  /** The disconnects announced for `key` since its last event or the start of its observation. */
  function Strikes(log: seq<Signal>, key: AgentKey): nat {
    if log == [] then 0
    else
      var init, last := log[..|log| - 1], log[|log| - 1];
      if last.ConnectionStateChanged? && last.key == key then
        (if last.state == Disconnected then Strikes(init, key) + 1 else 0)
      else Strikes(init, key)
  }

  function Pow2(n: nat): nat {
    if n == 0 then 1 else 2 * Pow2(n - 1)
  }

  function Backoff(strikes: nat): int {
    Min(FIRST_RECONNECT_DELAY * Pow2(strikes), MAX_RECONNECT_DELAY)
  }

  predicate BackedOff(p: ProviderState, log: seq<Signal>, key: AgentKey) {
    key in p.connections ==> p.connections[key].reconnectDelay == Backoff(Strikes(log, key))
  }

  ghost predicate BackoffOk(p: ProviderState, log: seq<Signal>) {
    forall key | key in p.connections :: BackedOff(p, log, key)
  }

  lemma {:induction false} StrikesSnoc(log: seq<Signal>, s: Signal, key: AgentKey)
    ensures Strikes(log + [s], key) ==
            if s.ConnectionStateChanged? && s.key == key then
              (if s.state == Disconnected then Strikes(log, key) + 1 else 0)
            else Strikes(log, key)
  {
    assert (log + [s])[..|log + [s]| - 1] == log;
  }

  lemma {:induction false} QuietKeepsStrikes(log: seq<Signal>, ss: seq<Signal>, key: AgentKey)
    requires forall s | s in ss :: !s.ConnectionStateChanged?
    ensures Strikes(log + ss, key) == Strikes(log, key)
    decreases |ss|
  {
    if ss == [] {
      assert log + ss == log;
    } else {
      var init, last := ss[..|ss| - 1], ss[|ss| - 1];
      assert log + ss == log + init + [last];
      StrikesSnoc(log + init, last, key);
      QuietKeepsStrikes(log, init, key);
    }
  }

  lemma {:induction false} CheckBacksOff(p: ProviderState, log: seq<Signal>, key: AgentKey, now: int)
    requires BackoffOk(p, log)
    ensures BackoffOk(CheckConnection(p, key, now), log + CheckSignals(p, key, now))
  {
    var p' := CheckConnection(p, key, now);
    forall k | k in p'.connections ensures BackedOff(p', log + CheckSignals(p, key, now), k) {
      assert BackedOff(p, log, k);
      if CheckSignals(p, key, now) == [] {
        assert log + CheckSignals(p, key, now) == log;
      } else {
        StrikesSnoc(log, ConnectionStateChanged(key, Disconnected), k);
      }
    }
  }

  lemma {:induction false} TickBacksOff(p: ProviderState, log: seq<Signal>, order: seq<AgentKey>, now: int)
    requires BackoffOk(p, log)
    ensures BackoffOk(CheckConnections(p, order, now), log + CheckAllSignals(p, order, now))
    decreases |order|
  {
    if order == [] {
      assert log + CheckAllSignals(p, order, now) == log;
    } else {
      var p1 := CheckConnection(p, order[0], now);
      CheckBacksOff(p, log, order[0], now);
      TickBacksOff(p1, log + CheckSignals(p, order[0], now), order[1..], now);
      assert log + CheckAllSignals(p, order, now)
             == log + CheckSignals(p, order[0], now) + CheckAllSignals(p1, order[1..], now);
    }
  }

  /** Observing and hearing from an agent announce a state other than Disconnected, and start over. */
  lemma {:induction false} RestartBacksOff(p: ProviderState, p': ProviderState, log: seq<Signal>, key: AgentKey,
      state: ConnectionState, quiet: seq<Signal>)
    requires BackoffOk(p, log) && state != Disconnected && forall s | s in quiet :: !s.ConnectionStateChanged?
    requires key in p'.connections && p'.connections[key].reconnectDelay == FIRST_RECONNECT_DELAY
    requires forall k | k in p'.connections && k != key :: k in p.connections && p'.connections[k] == p.connections[k]
    ensures BackoffOk(p', log + ([ConnectionStateChanged(key, state)] + quiet))
  {
    var first := ConnectionStateChanged(key, state);
    forall k | k in p'.connections ensures BackedOff(p', log + ([first] + quiet), k) {
      assert k != key ==> BackedOff(p, log, k);
      assert log + ([first] + quiet) == log + [first] + quiet;
      QuietKeepsStrikes(log + [first], quiet, k);
      StrikesSnoc(log, first, k);
    }
  }

  lemma {:induction false} BackoffKept(m: Monitor, a: Action)
    requires BackoffOk(m.provider, m.log) && Mirrors(m.provider, m.list) && Enabled(m, a)
    ensures BackoffOk(Step(m, a).provider, Step(m, a).log)
  {
    var m' := Step(m, a);
    match a
    case WatchdogTick(order) => TickBacksOff(m.provider, m.log, order, m.now);
    case SseEvent(key, data) => EventBacksOff(m, key, data);
    case AgentFound(info) => AddBacksOff(m, info);
    case _ =>
      forall k | k in m'.provider.connections ensures BackedOff(m'.provider, m'.log, k) {
        assert BackedOff(m.provider, m.log, k);
      }
  }

  lemma {:induction false} EventBacksOff(m: Monitor, key: AgentKey, data: Payload)
    requires BackoffOk(m.provider, m.log)
    ensures BackoffOk(Step(m, SseEvent(key, data)).provider, Step(m, SseEvent(key, data)).log)
  {
    if key in m.provider.connections {
      PayloadIsQuiet(key, data);
      RestartBacksOff(m.provider, HandleSseEvent(m.provider, key, m.now), m.log, key, Connected,
                      PayloadSignals(key, data));
    } else {
      assert m.log + EventSignals(m.provider, key, data) == m.log;
    }
  }

  lemma {:induction false} AddBacksOff(m: Monitor, info: AgentInformation)
    requires BackoffOk(m.provider, m.log) && Mirrors(m.provider, m.list)
    ensures BackoffOk(AddAgentTo(m, info).provider, AddAgentTo(m, info).log)
  {
    ListsIffKey(m.list, info.key);
    if !Lists(m.list, info.key) {
      var quiet: seq<Signal> := [];
      assert [ConnectionStateChanged(info.key, Connecting)] + quiet == ObserveSignals(m.provider, info.key);
      RestartBacksOff(m.provider, Observe(m.provider, info.key, m.now), m.log, info.key, Connecting, quiet);
    }
  }
}
