/** What the user sees: the effect of every step on the rows of the view and on the connections behind them. */
module MonitorView {
  import opened Wrappers
  import opened Health
  import opened Aggregation
  import opened Agents
  import opened Provider
  import opened ListModel
  import opened Monitor
  import opened MonitorTiming
  import opened MonitorMirror
  import opened MonitorTheorems

  // ---- rows -----------------------------------------------------------------------------------------------

  predicate ShowsAgent(view: seq<Row>, key: AgentKey) {
    exists i :: 0 <= i < |view| && view[i].key == key
  }

  lemma {:induction false} RowIndex(l: ListState, i: nat)
    requires DistinctKeys(l.agents) && i < |l.agents|
    ensures IndexOf(l.agents, l.agents[i].key) == i
  {
  }

  lemma {:induction false} ShownIsListed(l: ListState, key: AgentKey)
    ensures ShowsAgent(Rows(l), key) <==> Lists(l, key)
  {
    var at := IndexOf(l.agents, key);
    if at < |l.agents| {
      assert Rows(l)[at].key == key;
    }
    if ShowsAgent(Rows(l), key) {
      var i :| 0 <= i < |Rows(l)| && Rows(l)[i].key == key;
      assert l.agents[i].key == key;
    }
  }

  /** A row that has taken the content of one signal in. */
  function Told(row: Row, s: Signal): Row {
    match s
    case ConnectionStateChanged(_, state) => row.(state := state)
    case StatusChanged(_, health) => row.(health := health)
    case DiskCollectionChanged(_, disks) => row.(diskNames := NamesOf(disks), diskData := disks)
    case LastRefreshedChanged(_, timestamp) => row.(refreshed := timestamp)
  }

  function NamesOf(disks: seq<DiskInfo>): seq<string> {
    seq(|disks|, d requires 0 <= d < |disks| => disks[d].name)
  }

  function ToldAll(row: Row, ss: seq<Signal>): Row
    decreases |ss|
  {
    if ss == [] then row else ToldAll(Told(row, ss[0]), ss[1..])
  }

  lemma {:induction false} ToldConcat(row: Row, a: seq<Signal>, b: seq<Signal>)
    ensures ToldAll(row, a + b) == ToldAll(ToldAll(row, a), b)
    decreases |a|
  {
    if a == [] {
      assert a + b == b;
    } else {
      assert (a + b)[1..] == a[1..] + b;
      ToldConcat(Told(row, a[0]), a[1..], b);
    }
  }

  lemma {:induction false} ToldOne(row: Row, s: Signal)
    ensures ToldAll(row, [s]) == Told(row, s)
  {
    assert [s][1..] == [];
  }

  lemma {:induction false} SlotTells(l: ListState, s: Signal, i: nat)
    requires DistinctKeys(l.agents) && i < |l.agents| && l.agents[i].key == s.key
    ensures Slot(l, s).agents == l.agents && Rows(Slot(l, s)) == Rows(l)[i := Told(Rows(l)[i], s)]
  {
    RowIndex(l, i);
    SlotRows(l, s);
  }

  lemma {:induction false} SlotsTell(l: ListState, ss: seq<Signal>, i: nat)
    requires DistinctKeys(l.agents) && i < |l.agents| && forall s | s in ss :: s.key == l.agents[i].key
    ensures Rows(Slots(l, ss)) == Rows(l)[i := ToldAll(Rows(l)[i], ss)]
    decreases |ss|
  {
    if ss != [] {
      SlotTells(l, ss[0], i);
      SlotsTell(Slot(l, ss[0]), ss[1..], i);
    }
  }

  // ---- events ---------------------------------------------------------------------------------------------

  /** A row whose agent has just sent `data`. */
  function Updated(row: Row, data: Payload): Row {
    row.(state := Connected,
         health := if data.health.Some? then data.health.value else row.health,
         diskNames := if data.disks.Some? then NamesOf(data.disks.value) else row.diskNames,
         diskData := if data.disks.Some? then data.disks.value else row.diskData,
         refreshed := if data.lastRefreshed.Some? then data.lastRefreshed.value else row.refreshed)
  }

  lemma {:induction false} PayloadTells(row: Row, key: AgentKey, data: Payload)
    ensures ToldAll(row, PayloadSignals(key, data)) == Updated(row, data).(state := row.state)
  {
    var a: seq<Signal> := if data.health.Some? then [StatusChanged(key, data.health.value)] else [];
    var b: seq<Signal> := if data.disks.Some? then [DiskCollectionChanged(key, data.disks.value)] else [];
    var c: seq<Signal> :=
      if data.lastRefreshed.Some? then [LastRefreshedChanged(key, data.lastRefreshed.value)] else [];
    ToldConcat(row, a + b, c);
    ToldConcat(row, a, b);
    forall r: Row, s: Signal { ToldOne(r, s); }
  }

  lemma {:induction false} EventTells(row: Row, p: ProviderState, key: AgentKey, data: Payload)
    requires key in p.connections
    ensures ToldAll(row, EventSignals(p, key, data)) == Updated(row, data)
    ensures forall s | s in EventSignals(p, key, data) :: s.key == key
  {
    ToldConcat(row, [ConnectionStateChanged(key, Connected)], PayloadSignals(key, data));
    ToldOne(row, ConnectionStateChanged(key, Connected));
    PayloadTells(row.(state := Connected), key, data);
  }

  /** The row's agent is observed, and its tables hold what the row shows. */
  lemma {:induction false} RowIsObserved(m: Monitor, i: nat)
    requires Inv(m) && i < |m.view|
    ensures |m.view| == |m.list.agents| && m.view[i] == RowOf(m.list, m.list.agents[i])
    ensures m.view[i].key == m.list.agents[i].key && m.view[i].key in m.provider.connections
  {
    assert m.list.agents[i] in m.list.agents;
    assert m.list.agents[i].key in Keys(m.list.agents);
  }

  lemma {:induction false} UnshownIsUnobserved(m: Monitor, key: AgentKey)
    requires Inv(m) && !ShowsAgent(m.view, key)
    ensures key !in m.provider.connections && !Lists(m.list, key)
  {
    ShownIsListed(m.list, key);
    ListsIffKey(m.list, key);
  }

  /**
   An event shows at once in the row of its agent: Connected, and the health, the disks with their names and the time
   of refresh wherever it has them; a role it does not have keeps its value.  No other row changes.
   */
  lemma {:induction false} EventShows(m: Monitor, key: AgentKey, data: Payload, i: nat)
    requires Inv(m) && i < |m.view| && m.view[i].key == key
    ensures Step(m, SseEvent(key, data)).view
            == m.view[i := m.view[i].(
                 state := Connected,
                 health := if data.health.Some? then data.health.value else m.view[i].health,
                 diskNames := if data.disks.Some? then NamesOf(data.disks.value) else m.view[i].diskNames,
                 diskData := if data.disks.Some? then data.disks.value else m.view[i].diskData,
                 refreshed := if data.lastRefreshed.Some? then data.lastRefreshed.value else m.view[i].refreshed)]
  {
    RowIsObserved(m, i);
    EventTells(m.view[i], m.provider, key, data);
    SlotsTell(m.list, EventSignals(m.provider, key, data), i);
    ViewKept(m, SseEvent(key, data));
  }

  /** Late events of agents that are no longer listed show nowhere. */
  lemma {:induction false} LateEventShowsNowhere(m: Monitor, key: AgentKey, data: Payload)
    requires Inv(m) && !ShowsAgent(m.view, key)
    ensures Step(m, SseEvent(key, data)) == m
  {
    UnshownIsUnobserved(m, key);
    assert m.log + [] == m.log;
  }

  // ---- agents come and go ---------------------------------------------------------------------------------

  lemma {:induction false} NewRow(l: ListState, info: AgentInformation)
    requires TablesOk(l) && !Lists(l, info.key)
    ensures Rows(AddAgent(l, info)) == Rows(l) + [Row(info.key, info.source, Unknown, [], [], Disconnected, "")]
  {
    ListsIffKey(l, info.key);
    var l' := AddAgent(l, info);
    assert RowOf(l', info) == Row(info.key, info.source, Unknown, [], [], Disconnected, "");
    forall i | 0 <= i < |l.agents| ensures Rows(l')[i] == Rows(l)[i] {
    }
  }

  /** An agent nobody knew gets the last row, with nothing known of it. */
  lemma {:induction false} NewAgentShows(m: Monitor, info: AgentInformation)
    requires Inv(m) && !ShowsAgent(m.view, info.key)
    ensures Step(m, AgentFound(info)).view == m.view + [Row(info.key, info.source, Unknown, [], [], Connecting, "")]
  {
    UnshownIsUnobserved(m, info.key);
    var l', n := AddAgent(m.list, info), |m.list.agents|;
    var signals := ObserveSignals(m.provider, info.key);
    NewRow(m.list, info);
    AddKeys(m.list, info);
    assert l'.agents[n] == info;
    SlotsTell(l', signals, n);
    ToldOne(Rows(l')[n], signals[0]);
    ViewKept(m, AgentFound(info));
  }

  lemma {:induction false} KnownRows(l: ListState, info: AgentInformation, i: nat)
    requires i < |l.agents| && l.agents[i].key == info.key && IndexOf(l.agents, info.key) == i
    ensures Rows(AddAgent(l, info))
            == if info.source == Hardcoded && l.agents[i].source == ZeroConf
               then Rows(l)[i := RowOf(l, l.agents[i]).(source := Hardcoded)] else Rows(l)
  {
    if Promotes(l, info) {
      assert RowOf(AddAgent(l, info), info) == RowOf(l, l.agents[i]).(source := info.source);
    }
  }

  /** A known agent is shown as the user's once the user adds it, and otherwise as before. */
  lemma {:induction false} KnownAgentShows(m: Monitor, info: AgentInformation, i: nat)
    requires Inv(m) && i < |m.view| && m.view[i].key == info.key
    ensures Step(m, AgentFound(info)).view
            == if info.source == Hardcoded && m.view[i].source == ZeroConf
               then m.view[i := m.view[i].(source := Hardcoded)] else m.view
    ensures Step(m, AgentFound(info)).provider == m.provider
  {
    RowIsObserved(m, i);
    RowIndex(m.list, i);
    ViewKept(m, AgentFound(info));
    KnownRows(m.list, info, i);
  }

  lemma {:induction false} RemovedRows(m: Monitor, i: nat)
    requires Inv(m) && i < |m.view|
    ensures RemoveAt(m, i).view == m.view[..i] + m.view[i + 1..]
    ensures RemoveAt(m, i).provider == m.provider.(connections := m.provider.connections - {m.view[i].key})
  {
    RowIsObserved(m, i);
    ReplayOne(m.view, RowRemoved(i));
  }

  /** The user may remove any row: its agent is no longer observed. */
  lemma {:induction false} RemovedRowGoes(m: Monitor, position: int)
    requires Inv(m)
    ensures if 0 <= position < |m.view| then
              var m' := Step(m, RemoveRow(position));
              && m'.view == m.view[..position] + m.view[position + 1..]
              && m'.provider == m.provider.(connections := m.provider.connections - {m.view[position].key})
            else Step(m, RemoveRow(position)) == m
  {
    ViewLength(m);
    if 0 <= position < |m.view| {
      RemovedRows(m, position);
      RemovalStep(m, position);
    }
  }

  lemma {:induction false} RemovalStep(m: Monitor, position: nat)
    requires position < |m.list.agents|
    ensures Step(m, RemoveRow(position)) == RemoveAt(m, position)
  {
  }

  lemma {:induction false} ViewLength(m: Monitor)
    requires Inv(m)
    ensures |m.view| == |m.list.agents|
  {
  }

  /** An agent that discovery loses goes, unless the user added it. */
  lemma {:induction false} LostAgentGoes(m: Monitor, info: AgentInformation, i: nat)
    requires Inv(m) && info.source == ZeroConf && i < |m.view| && m.view[i].key == info.key
    ensures if m.view[i].source == Hardcoded then Step(m, AgentLost(info)) == m
            else Step(m, AgentLost(info)) == Step(m, RemoveRow(i))
  {
    RowIsObserved(m, i);
    RowIndex(m.list, i);
    LostRow(m, info, i);
  }

  lemma {:induction false} LostRow(m: Monitor, info: AgentInformation, i: nat)
    requires info.source == ZeroConf && i < |m.list.agents| && IndexOf(m.list.agents, info.key) == i
    ensures Step(m, AgentLost(info)) == if m.list.agents[i].source == Hardcoded then m else Step(m, RemoveRow(i))
  {
  }

  lemma {:induction false} LostStrangerIsIgnored(m: Monitor, info: AgentInformation)
    requires Inv(m) && info.source == ZeroConf && !ShowsAgent(m.view, info.key)
    ensures Step(m, AgentLost(info)) == m
  {
    UnshownIsUnobserved(m, info.key);
  }

  // ---- the watchdog and its timers ------------------------------------------------------------------------

  /** Silent for more than 45 s, or for more than 30 s after a subscription no event has answered. */
  predicate Silent(c: Connection, now: int) {
    if c.connected then now - c.lastEventTime > 45_000 else now - c.subscribedAt > 30_000
  }

  ghost predicate WatchedOk(p: ProviderState, now: int) {
    forall key | key in p.connections :: p.connections[key].hasSse && EPOCH < p.connections[key].subscribedAt
  }

  /** What a tick makes of a connection. */
  function Ticked(c: Connection, now: int): Connection {
    if !Silent(c, now) then c
    else c.(connected := false,
            reconnectDelay := if c.reconnectDelay * 2 < 30_000 then c.reconnectDelay * 2 else 30_000)
  }

  /** The state in which the first connections of a tick have been checked. */
  ghost predicate PartlyTicked(p: ProviderState, p': ProviderState, done: set<AgentKey>, now: int) {
    && p'.connections.Keys == p.connections.Keys && done <= p.connections.Keys
    && (forall key | key in p.connections ::
          p'.connections[key] == if key in done then Ticked(p.connections[key], now) else p.connections[key])
    && (forall t | t in p'.timers && t !in p.timers :: Started(p, done, t, now))
    && (forall t | t in p.timers || Started(p, done, t, now) :: t in p'.timers)
  }

  predicate Started(p: ProviderState, done: set<AgentKey>, t: Timer, now: int) {
    && t.key in done && t.key in p.connections && Silent(p.connections[t.key], now)
    && t == Timer(t.key, now, p.connections[t.key].reconnectDelay)
  }

  lemma {:induction false} CheckTicks(p: ProviderState, p': ProviderState, done: set<AgentKey>, key: AgentKey, now: int)
    requires WatchedOk(p, now) && PartlyTicked(p, p', done, now) && key in p.connections && key !in done
    ensures PartlyTicked(p, CheckConnection(p', key, now), done + {key}, now)
    ensures CheckSignals(p', key, now)
            == if Silent(p.connections[key], now) then [ConnectionStateChanged(key, Disconnected)] else []
  {
    var c := p.connections[key];
    assert p'.connections[key] == c;
    assert TimedOut(c, now) <==> Silent(c, now);
  }

  /** The signals of a tick. */
  function SilentSignals(p: ProviderState, order: seq<AgentKey>, now: int): seq<Signal> {
    if order == [] then []
    else
      (if order[0] in p.connections && Silent(p.connections[order[0]], now)
       then [ConnectionStateChanged(order[0], Disconnected)] else [])
      + SilentSignals(p, order[1..], now)
  }

  lemma {:induction false} HeadAndRest(order: seq<AgentKey>)
    requires order != [] && forall i, j | 0 <= i < j < |order| :: order[i] != order[j]
    ensures forall k :: k in order <==> k == order[0] || k in order[1..]
    ensures order[0] !in order[1..]
  {
  }

  lemma {:induction false} ChecksTick(p: ProviderState, p': ProviderState, done: set<AgentKey>, order: seq<AgentKey>,
      now: int)
    requires WatchedOk(p, now) && PartlyTicked(p, p', done, now)
    requires forall i, j | 0 <= i < j < |order| :: order[i] != order[j]
    requires forall key | key in order :: key in p.connections && key !in done
    ensures PartlyTicked(p, CheckConnections(p', order, now), done + (set key | key in order), now)
    ensures CheckAllSignals(p', order, now) == SilentSignals(p, order, now)
    decreases |order|
  {
    if order == [] {
      assert done + {} == done;
    } else {
      var key, rest := order[0], order[1..];
      CheckTicks(p, p', done, key, now);
      HeadAndRest(order);
      ChecksTick(p, CheckConnection(p', key, now), done + {key}, rest, now);
      assert done + (set k | k in order) == done + {key} + (set k | k in rest);
    }
  }

  lemma {:induction false} InvWatched(m: Monitor)
    requires Inv(m)
    ensures WatchedOk(m.provider, m.now)
  {
    forall key | key in m.provider.connections
      ensures m.provider.connections[key].hasSse && EPOCH < m.provider.connections[key].subscribedAt
    {
      assert ConnectionOk(m.provider.connections[key], key, m.provider.timers, m.now, m.nextTick - WATCHDOG_INTERVAL);
    }
  }

  /**
   A tick gives up exactly the silent connections: each one gets a reconnect timer with its present delay, and twice
   that delay, but at most 30 s, for the next time.  The other connections and the timers under way stay as they are.
   */
  lemma {:induction false} TickGivesUpExactly(m: Monitor, order: seq<AgentKey>)
    requires Inv(m) && Enabled(m, WatchdogTick(order))
    ensures var p, p', now := m.provider, Step(m, WatchdogTick(order)).provider, m.now;
            && p'.connections.Keys == p.connections.Keys
            && (forall key | key in p.connections ::
                  var c := p.connections[key];
                  p'.connections[key]
                  == if Silent(c, now)
                     then c.(connected := false, reconnectDelay := Min(c.reconnectDelay * 2, 30_000)) else c)
            && (forall t :: t in p'.timers
                  <==> t in p.timers || (t.key in p.connections && Silent(p.connections[t.key], now)
                                         && t == Timer(t.key, now, p.connections[t.key].reconnectDelay)))
    ensures Step(m, WatchdogTick(order)).nextTick == m.now + 15_000
  {
    var p := m.provider;
    InvWatched(m);
    EnumeratesOnly(order, p.connections.Keys);
    assert PartlyTicked(p, p, {}, m.now);
    ChecksTick(p, p, {}, order, m.now);
    assert {} + (set key | key in order) == p.connections.Keys;
    var p' := CheckConnections(p, order, m.now);
    assert Step(m, WatchdogTick(order)).provider == p';
    forall t ensures t in p'.timers <==> t in p.timers || Started(p, p.connections.Keys, t, m.now) {
    }
  }

  lemma {:induction false} SilentTells(l: ListState, p: ProviderState, order: seq<AgentKey>, now: int, i: nat)
    requires DistinctKeys(l.agents) && i < |l.agents| && l.agents[i].key in p.connections
    requires forall a, b | 0 <= a < b < |order| :: order[a] != order[b]
    requires forall key | key in order :: key in p.connections
    ensures var l' := Slots(l, SilentSignals(p, order, now));
            && l'.agents == l.agents
            && RowOf(l', l.agents[i])
               == if l.agents[i].key in order && Silent(p.connections[l.agents[i].key], now)
                  then RowOf(l, l.agents[i]).(state := Disconnected) else RowOf(l, l.agents[i])
    decreases |order|
  {
    if order != [] {
      var key, rest := order[0], order[1..];
      var first: seq<Signal> :=
        if Silent(p.connections[key], now) then [ConnectionStateChanged(key, Disconnected)] else [];
      var l1 := Slots(l, first);
      SlotsConcat(l, first, SilentSignals(p, rest, now));
      OneSilent(l, key, first, i);
      SilentTells(l1, p, rest, now, i);
      assert forall k | k in rest :: k in order && k != key;
    }
  }

  lemma {:induction false} OneSilent(l: ListState, key: AgentKey, first: seq<Signal>, i: nat)
    requires DistinctKeys(l.agents) && i < |l.agents|
    requires first == [] || first == [ConnectionStateChanged(key, Disconnected)]
    ensures Slots(l, first).agents == l.agents
    ensures RowOf(Slots(l, first), l.agents[i])
            == if l.agents[i].key == key && first != [] then RowOf(l, l.agents[i]).(state := Disconnected)
               else RowOf(l, l.agents[i])
  {
    if first != [] {
      assert first[1..] == [];
      assert Slots(l, first) == Slot(l, first[0]);
      RowIndex(l, i);
      SilencedRow(l, key, i);
    }
  }

  lemma {:induction false} SilencedRow(l: ListState, key: AgentKey, i: nat)
    requires i < |l.agents| && IndexOf(l.agents, l.agents[i].key) == i
    ensures var l' := Slot(l, ConnectionStateChanged(key, Disconnected));
            && l'.agents == l.agents
            && RowOf(l', l.agents[i])
               == RowOf(l, l.agents[i]).(
                    state := if l.agents[i].key == key then Disconnected else RowOf(l, l.agents[i]).state)
  {
  }

  /** A tick shows exactly the silent agents as disconnected, and changes nothing else that is shown. */
  lemma {:induction false} TickShows(m: Monitor, order: seq<AgentKey>, i: nat)
    requires Inv(m) && Enabled(m, WatchdogTick(order)) && i < |m.view|
    ensures |Step(m, WatchdogTick(order)).view| == |m.view| && m.view[i].key in m.provider.connections
    ensures Step(m, WatchdogTick(order)).view[i]
            == if Silent(m.provider.connections[m.view[i].key], m.now) then m.view[i].(state := Disconnected)
               else m.view[i]
  {
    var p := m.provider;
    InvWatched(m);
    RowIsObserved(m, i);
    EnumeratesOnly(order, p.connections.Keys);
    assert PartlyTicked(p, p, {}, m.now);
    ChecksTick(p, p, {}, order, m.now);
    SilentTells(m.list, p, order, m.now, i);
    ViewKept(m, WatchdogTick(order));
  }

  /** A reconnect timer subscribes its agent again if that is still observed; time passing and timers show nowhere. */
  lemma {:induction false} TimerResubscribes(m: Monitor, timer: Timer)
    requires Enabled(m, ReconnectTimer(timer))
    ensures var m' := Step(m, ReconnectTimer(timer));
            && m'.view == m.view && m'.list == m.list
            && m'.provider.timers == m.provider.timers - multiset{timer}
            && m'.provider.connections
               == if timer.key !in m.provider.connections then m.provider.connections
                  else m.provider.connections[timer.key :=
                         m.provider.connections[timer.key].(hasSse := true, subscribedAt := m.now)]
  {
  }

  /** An event starts the backoff over and is the connection's latest; no other connection and no timer changes. */
  lemma {:induction false} EventConnects(m: Monitor, key: AgentKey, data: Payload)
    requires key in m.provider.connections
    ensures var p' := Step(m, SseEvent(key, data)).provider;
            && p'.timers == m.provider.timers
            && p'.connections == m.provider.connections[key :=
                 m.provider.connections[key].(connected := true, lastEventTime := m.now, reconnectDelay := 1_000)]
  {
  }

  // ---- what a row shows, over a whole run -----------------------------------------------------------------

  /** The last an agent said about itself since it was listed, and when it last said anything. */
  datatype Heard = Heard(health: Health, disks: seq<DiskInfo>, refreshed: string, at: Option<int>)

  const NOTHING := Heard(Unknown, [], "", None)

  /** What is known when the agent has just sent `data`. */
  function HeardNow(heard: Heard, data: Payload, now: int): Heard {
    Heard(if data.health.Some? then data.health.value else heard.health,
          if data.disks.Some? then data.disks.value else heard.disks,
          if data.lastRefreshed.Some? then data.lastRefreshed.value else heard.refreshed,
          Some(now))
  }

  function Hears(m: Monitor, a: Action, key: AgentKey, heard: Heard): Heard
    requires Enabled(m, a)
  {
    if !ShowsAgent(Step(m, a).view, key) then NOTHING
    else if a.SseEvent? && a.key == key then HeardNow(heard, a.data, m.now)
    else heard
  }

  function HeardIn(m: Monitor, actions: seq<Action>, key: AgentKey, heard: Heard): Heard
    requires IsRun(m, actions)
    decreases |actions|
  {
    if actions == [] then heard
    else HeardIn(Step(m, actions[0]), actions[1..], key, Hears(m, actions[0], key, heard))
  }

  /** The row shows what was heard, and the connection knows when. */
  predicate Tells(row: Row, connections: map<AgentKey, Connection>, heard: Heard) {
    && row.health == heard.health && row.diskData == heard.disks && row.diskNames == NamesOf(heard.disks)
    && row.refreshed == heard.refreshed
    && row.key in connections
    && connections[row.key].lastEventTime == (if heard.at.Some? then heard.at.value else EPOCH)
  }

  predicate TellsAgent(view: seq<Row>, connections: map<AgentKey, Connection>, key: AgentKey, heard: Heard) {
    if ShowsAgent(view, key) then forall i | 0 <= i < |view| && view[i].key == key :: Tells(view[i], connections, heard)
    else heard == NOTHING
  }

  lemma {:induction false} ShownKeys(view: seq<Row>, view': seq<Row>)
    requires |view'| == |view| && forall i | 0 <= i < |view| :: view'[i].key == view[i].key
    ensures forall key :: ShowsAgent(view', key) <==> ShowsAgent(view, key)
  {
    forall key | ShowsAgent(view, key) ensures ShowsAgent(view', key) {
      var i :| 0 <= i < |view| && view[i].key == key;
      assert view'[i].key == key;
    }
  }

  /** Rows whose announced content is the same, and connections with the same times, tell the same. */
  lemma {:induction false} QuietTells(view: seq<Row>, view': seq<Row>, connections: map<AgentKey, Connection>,
      connections': map<AgentKey, Connection>, key: AgentKey, heard: Heard)
    requires TellsAgent(view, connections, key, heard) && |view'| == |view|
    requires forall i | 0 <= i < |view| :: view'[i] == view[i].(state := view'[i].state, source := view'[i].source)
    requires forall k | k in connections ::
               k in connections' && connections'[k].lastEventTime == connections[k].lastEventTime
    ensures TellsAgent(view', connections', key, heard) && (ShowsAgent(view', key) <==> ShowsAgent(view, key))
  {
    ShownKeys(view, view');
    forall i | 0 <= i < |view'| && view'[i].key == key ensures Tells(view'[i], connections', heard) {
      assert view[i].key == key && Tells(view[i], connections, heard);
    }
  }

  lemma {:induction false} UpdatedTells(view: seq<Row>, connections: map<AgentKey, Connection>, i: nat, data: Payload,
      c: Connection, key: AgentKey, heard: Heard)
    requires i < |view| && forall j | 0 <= j < |view| && view[j].key == view[i].key :: j == i
    requires TellsAgent(view, connections, key, heard)
    ensures var view', connections' := view[i := Updated(view[i], data)], connections[view[i].key := c];
            && (ShowsAgent(view', key) <==> ShowsAgent(view, key))
            && TellsAgent(view', connections', key,
                          if key == view[i].key then HeardNow(heard, data, c.lastEventTime) else heard)
  {
    var view', connections' := view[i := Updated(view[i], data)], connections[view[i].key := c];
    ShownKeys(view, view');
    forall j | 0 <= j < |view'| && view'[j].key == key
      ensures Tells(view'[j], connections',
                    if key == view[i].key then HeardNow(heard, data, c.lastEventTime) else heard)
    {
      assert Tells(view[j], connections, heard);
    }
  }

  predicate MonitorTells(m: Monitor, key: AgentKey, heard: Heard) {
    TellsAgent(m.view, m.provider.connections, key, heard)
  }

  lemma {:induction false} EventTellsOn(m: Monitor, k: AgentKey, data: Payload, key: AgentKey, heard: Heard)
    requires Inv(m) && MonitorTells(m, key, heard)
    ensures MonitorTells(Step(m, SseEvent(k, data)), key, Hears(m, SseEvent(k, data), key, heard))
  {
    if ShowsAgent(m.view, k) {
      var i :| 0 <= i < |m.view| && m.view[i].key == k;
      ShownEventTells(m, i, data, key, heard);
    } else {
      LateEventShowsNowhere(m, k, data);
    }
  }

  lemma {:induction false} ShownEventTells(m: Monitor, i: nat, data: Payload, key: AgentKey, heard: Heard)
    requires Inv(m) && MonitorTells(m, key, heard) && i < |m.view|
    ensures var a := SseEvent(m.view[i].key, data); MonitorTells(Step(m, a), key, Hears(m, a, key, heard))
  {
    var k := m.view[i].key;
    var c := m.provider.connections;
    OnlyRow(m, i);
    RowIsObserved(m, i);
    EventShows(m, k, data, i);
    EventConnects(m, k, data);
    UpdatedTells(m.view, c, i, data,
                 c[k].(connected := true, lastEventTime := m.now, reconnectDelay := 1_000), key, heard);
  }

  /** No agent is shown twice. */
  lemma {:induction false} OnlyRow(m: Monitor, i: nat)
    requires Inv(m) && i < |m.view|
    ensures forall j | 0 <= j < |m.view| && m.view[j].key == m.view[i].key :: j == i
  {
  }

  lemma {:induction false} TickKeepsTimes(m: Monitor, order: seq<AgentKey>)
    requires Inv(m) && Enabled(m, WatchdogTick(order))
    ensures forall k | k in m.provider.connections ::
              && k in Step(m, WatchdogTick(order)).provider.connections
              && Step(m, WatchdogTick(order)).provider.connections[k].lastEventTime
                 == m.provider.connections[k].lastEventTime
  {
    TickGivesUpExactly(m, order);
  }

  lemma {:induction false} TickKeepsRows(m: Monitor, order: seq<AgentKey>)
    requires Inv(m) && Enabled(m, WatchdogTick(order))
    ensures var view' := Step(m, WatchdogTick(order)).view;
            |view'| == |m.view| && forall i | 0 <= i < |m.view| :: view'[i] == m.view[i].(state := view'[i].state)
  {
    var m' := Step(m, WatchdogTick(order));
    ViewKept(m, WatchdogTick(order));
    SlotsFollowed(m.list, CheckAllSignals(m.provider, order, m.now));
    forall i: nat | i < |m.view| ensures |m'.view| == |m.view| && m'.view[i] == m.view[i].(state := m'.view[i].state) {
      TickShows(m, order, i);
    }
  }

  lemma {:induction false} TickTellsOn(m: Monitor, order: seq<AgentKey>, key: AgentKey, heard: Heard)
    requires Inv(m) && Enabled(m, WatchdogTick(order)) && MonitorTells(m, key, heard)
    ensures MonitorTells(Step(m, WatchdogTick(order)), key, Hears(m, WatchdogTick(order), key, heard))
  {
    var m' := Step(m, WatchdogTick(order));
    TickKeepsTimes(m, order);
    TickKeepsRows(m, order);
    QuietTells(m.view, m'.view, m.provider.connections, m'.provider.connections, key, heard);
  }

  lemma {:induction false} FoundTellsOn(m: Monitor, info: AgentInformation, key: AgentKey, heard: Heard)
    requires Inv(m) && MonitorTells(m, key, heard)
    ensures MonitorTells(Step(m, AgentFound(info)), key, Hears(m, AgentFound(info), key, heard))
  {
    if ShowsAgent(m.view, info.key) {
      var i :| 0 <= i < |m.view| && m.view[i].key == info.key;
      KnownTellsOn(m, info, i, key, heard);
    } else {
      NewTellsOn(m, info, key, heard);
    }
  }

  lemma {:induction false} KnownTellsOn(m: Monitor, info: AgentInformation, i: nat, key: AgentKey, heard: Heard)
    requires Inv(m) && MonitorTells(m, key, heard) && i < |m.view| && m.view[i].key == info.key
    ensures MonitorTells(Step(m, AgentFound(info)), key, Hears(m, AgentFound(info), key, heard))
  {
    KnownAgentShows(m, info, i);
    PromotedTells(m.view, i, Step(m, AgentFound(info)).view, m.provider.connections, key, heard);
  }

  lemma {:induction false} PromotedTells(view: seq<Row>, i: nat, view': seq<Row>,
      connections: map<AgentKey, Connection>, key: AgentKey, heard: Heard)
    requires TellsAgent(view, connections, key, heard) && i < |view|
    requires view' == view || view' == view[i := view[i].(source := Hardcoded)]
    ensures TellsAgent(view', connections, key, if ShowsAgent(view', key) then heard else NOTHING)
  {
    QuietTells(view, view', connections, connections, key, heard);
  }

  lemma {:induction false} NewTellsOn(m: Monitor, info: AgentInformation, key: AgentKey, heard: Heard)
    requires Inv(m) && MonitorTells(m, key, heard) && !ShowsAgent(m.view, info.key)
    ensures MonitorTells(Step(m, AgentFound(info)), key, Hears(m, AgentFound(info), key, heard))
  {
    NewAgentShows(m, info);
    NewConnection(m, info);
    NewAgentTells(m.view, m.provider.connections, info, m.now, key, heard);
  }

  lemma {:induction false} NewConnection(m: Monitor, info: AgentInformation)
    requires Inv(m) && !ShowsAgent(m.view, info.key)
    ensures Step(m, AgentFound(info)).provider.connections
            == m.provider.connections[info.key := Connection(true, EPOCH, m.now, 1_000, false)]
  {
    UnshownIsUnobserved(m, info.key);
    ObserveConnections(m.provider, info.key, m.now);
  }

  lemma {:induction false} NewAgentTells(view: seq<Row>, connections: map<AgentKey, Connection>,
      info: AgentInformation, now: int, key: AgentKey, heard: Heard)
    requires TellsAgent(view, connections, key, heard) && !ShowsAgent(view, info.key)
    ensures var view' := view + [Row(info.key, info.source, Unknown, [], [], Connecting, "")];
            var connections' := connections[info.key := Connection(true, EPOCH, now, 1_000, false)];
            TellsAgent(view', connections', key, if ShowsAgent(view', key) then heard else NOTHING)
  {
    var view' := view + [Row(info.key, info.source, Unknown, [], [], Connecting, "")];
    if ShowsAgent(view, key) {
      var i :| 0 <= i < |view| && view[i].key == key;
      assert view'[i].key == key;
      assert forall j | 0 <= j < |view| && view'[j].key == key :: Tells(view[j], connections, heard);
    }
  }

  lemma {:induction false} RemovalTells(view: seq<Row>, connections: map<AgentKey, Connection>, at: nat,
      key: AgentKey, heard: Heard)
    requires at < |view| && forall j | 0 <= j < |view| && view[j].key == view[at].key :: j == at
    requires TellsAgent(view, connections, key, heard)
    ensures var view' := view[..at] + view[at + 1..];
            TellsAgent(view', connections - {view[at].key}, key, if ShowsAgent(view', key) then heard else NOTHING)
  {
    var view', connections' := view[..at] + view[at + 1..], connections - {view[at].key};
    if ShowsAgent(view', key) {
      forall j | 0 <= j < |view'| && view'[j].key == key
        ensures ShowsAgent(view, key) && Tells(view'[j], connections', heard)
      {
        var i := if j < at then j else j + 1;
        assert view[i].key == key && i != at;
        assert Tells(view[i], connections, heard);
      }
    }
  }

  lemma {:induction false} RemovalTellsOn(m: Monitor, at: nat, key: AgentKey, heard: Heard)
    requires Inv(m) && at < |m.view| && MonitorTells(m, key, heard)
    ensures MonitorTells(RemoveAt(m, at), key, if ShowsAgent(RemoveAt(m, at).view, key) then heard else NOTHING)
  {
    RemovedRows(m, at);
    OnlyRow(m, at);
    RemovalTells(m.view, m.provider.connections, at, key, heard);
  }

  lemma {:induction false} TimerTellsOn(m: Monitor, timer: Timer, key: AgentKey, heard: Heard)
    requires Enabled(m, ReconnectTimer(timer)) && MonitorTells(m, key, heard)
    ensures MonitorTells(Step(m, ReconnectTimer(timer)), key, Hears(m, ReconnectTimer(timer), key, heard))
  {
    var m' := Step(m, ReconnectTimer(timer));
    TimerResubscribes(m, timer);
    QuietTells(m.view, m'.view, m.provider.connections, m'.provider.connections, key, heard);
  }

  lemma {:induction false} StepTellsOn(m: Monitor, a: Action, key: AgentKey, heard: Heard)
    requires Inv(m) && Enabled(m, a) && MonitorTells(m, key, heard)
    ensures MonitorTells(Step(m, a), key, Hears(m, a, key, heard))
  {
    match a
    case Advance(_) =>
    case ReconnectTimer(timer) => TimerTellsOn(m, timer, key, heard);
    case SseEvent(k, data) => EventTellsOn(m, k, data, key, heard);
    case WatchdogTick(order) => TickTellsOn(m, order, key, heard);
    case AgentFound(info) => FoundTellsOn(m, info, key, heard);
    case RemoveRow(position) => if 0 <= position < |m.view| { RemovalTellsOn(m, position, key, heard); }
    case AgentLost(info) =>
      if Removable(m.list, info) { RemovalTellsOn(m, IndexOf(m.list.agents, info.key), key, heard); }
  }

  lemma {:induction false} RunTellsOn(m: Monitor, actions: seq<Action>, key: AgentKey, heard: Heard)
    requires Inv(m) && IsRun(m, actions) && MonitorTells(m, key, heard)
    ensures MonitorTells(After(m, actions), key, HeardIn(m, actions, key, heard))
    decreases |actions|
  {
    if actions != [] {
      StepTellsOn(m, actions[0], key, heard);
      StepInv(m, actions[0]);
      RunTellsOn(Step(m, actions[0]), actions[1..], key, Hears(m, actions[0], key, heard));
    }
  }

  /**
   After any run every row shows the last health, the last disks and the last time of refresh its agent announced since
   it was listed, or that it announced none, and the connection knows the time of its last event.
   */
  lemma {:induction false} RowsShowWhatWasHeard(start: int, actions: seq<Action>, i: nat)
    requires start > EPOCH && IsRun(Initial(start), actions) && i < |After(Initial(start), actions).view|
    ensures var m := After(Initial(start), actions);
            var row, heard := m.view[i], HeardIn(Initial(start), actions, m.view[i].key, NOTHING);
            && row.health == heard.health && row.diskData == heard.disks && row.diskNames == NamesOf(heard.disks)
            && row.refreshed == heard.refreshed
            && row.key in m.provider.connections
            && m.provider.connections[row.key].lastEventTime == (if heard.at.Some? then heard.at.value else EPOCH)
  {
    var m := After(Initial(start), actions);
    InitialInv(start);
    RunTellsOn(Initial(start), actions, m.view[i].key, NOTHING);
    assert ShowsAgent(m.view, m.view[i].key);
    assert Tells(m.view[i], m.provider.connections, HeardIn(Initial(start), actions, m.view[i].key, NOTHING));
  }

  // ---- time -----------------------------------------------------------------------------------------------

  lemma {:induction false} AnyOrder(keys: set<AgentKey>) returns (order: seq<AgentKey>)
    ensures Enumerates(order, keys)
    decreases keys
  {
    if keys == {} {
      order := [];
      assert (set k | k in order) == keys;
    } else {
      var key :| key in keys;
      var rest := AnyOrder(keys - {key});
      order := [key] + rest;
      EnumeratesOnly(rest, keys - {key});
      assert (set k | k in order) == keys;
    }
  }

  /** The clock never stands still for want of a step: a due timer fires, a due tick comes, or time passes. */
  lemma {:induction false} TimeGoesOn(m: Monitor) returns (a: Action)
    requires Reachable(m)
    ensures Enabled(m, a) && (a.ReconnectTimer? || a.WatchdogTick? || (a.Advance? && a.elapsed > 0))
  {
    ReachableInv(m);
    if t :| t in m.provider.timers && t.Due() == m.now {
      a := ReconnectTimer(t);
    } else if m.now == m.nextTick {
      var order := AnyOrder(m.provider.connections.Keys);
      a := WatchdogTick(order);
    } else {
      forall t | t in m.provider.timers ensures m.now + 1 <= t.Due() {
        assert TimerOk(t, m.now, m.nextTick - WATCHDOG_INTERVAL);
      }
      a := Advance(1);
    }
  }

  lemma {:induction false} TicksKept(m: Monitor, a: Action, start: int)
    requires Enabled(m, a) && (m.nextTick - start) % 15_000 == 0 && start < m.nextTick
    ensures (Step(m, a).nextTick - start) % 15_000 == 0 && start < Step(m, a).nextTick
  {
  }

  lemma {:induction false} RunTicks(m: Monitor, actions: seq<Action>, start: int)
    requires IsRun(m, actions) && (m.nextTick - start) % 15_000 == 0 && start < m.nextTick
    ensures (After(m, actions).nextTick - start) % 15_000 == 0 && start < After(m, actions).nextTick
    decreases |actions|
  {
    if actions != [] {
      TicksKept(m, actions[0], start);
      RunTicks(Step(m, actions[0]), actions[1..], start);
    }
  }

  /** The watchdog is due every 15 s from the start on, and never overdue. */
  lemma {:induction false} TicksAreRegular(start: int, actions: seq<Action>)
    requires start > EPOCH && IsRun(Initial(start), actions)
    ensures var m := After(Initial(start), actions);
            (m.nextTick - start) % 15_000 == 0 && start < m.nextTick && m.now <= m.nextTick <= m.now + 15_000
  {
    InitialInv(start);
    RunInv(Initial(start), actions);
    RunTicks(Initial(start), actions, start);
  }
}
