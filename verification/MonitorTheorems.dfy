/** What every run of the monitor keeps. */
module MonitorTheorems {
  import opened Agents
  import opened Provider
  import opened ListModel
  import opened Monitor
  import opened MonitorTiming
  import opened MonitorMirror

  ghost predicate Inv(m: Monitor) {
    TimingOk(m) && Mirrors(m.provider, m.list) && ViewOk(m) && BackoffOk(m.provider, m.log)
  }

  lemma {:induction false} InitialInv(start: int)
    requires start > EPOCH
    ensures Inv(Initial(start))
  {
  }

  lemma {:induction false} StepInv(m: Monitor, a: Action)
    requires Inv(m) && Enabled(m, a)
    ensures Inv(Step(m, a))
  {
    TimingKept(m, a);
    MirrorKept(m, a);
    ViewKept(m, a);
    BackoffKept(m, a);
  }

  lemma {:induction false} RunInv(m: Monitor, actions: seq<Action>)
    requires Inv(m) && IsRun(m, actions)
    ensures Inv(After(m, actions))
    decreases |actions|
  {
    if actions != [] {
      StepInv(m, actions[0]);
      RunInv(Step(m, actions[0]), actions[1..]);
    }
  }

  lemma {:induction false} ReachableInv(m: Monitor)
    requires Reachable(m)
    ensures Inv(m)
  {
    var start, actions :| start > EPOCH && IsRun(Initial(start), actions) && m == After(Initial(start), actions);
    InitialInv(start);
    RunInv(Initial(start), actions);
  }

  /** At all times an observed agent is connected, or a reconnect is pending, or it was subscribed at most 45 s ago. */
  lemma {:induction false} NoAgentIsAbandoned(m: Monitor, key: AgentKey)
    requires Reachable(m) && key in m.provider.connections
    ensures var c := m.provider.connections[key];
            || c.connected
            || (exists t :: t in m.provider.timers && t.key == key && m.now <= t.Due() <= m.now + 30_000)
            || m.now - c.subscribedAt <= 45_000
  {
    ReachableInv(m);
    var p, lastTick := m.provider, m.nextTick - WATCHDOG_INTERVAL;
    assert ConnectionOk(p.connections[key], key, p.timers, m.now, lastTick);
    if TimerBy(p.timers, key, m.now + MAX_RECONNECT_DELAY) {
      var t :| TimerFor(p.timers, t, key, m.now + MAX_RECONNECT_DELAY);
      assert TimerOk(t, m.now, lastTick);
    }
  }

  /** While no event has arrived since the last subscribe attempt, that attempt is at most 75 s old. */
  lemma {:induction false} ResubscribesWithin75Seconds(m: Monitor, key: AgentKey)
    requires Reachable(m) && key in m.provider.connections
    requires m.provider.connections[key].lastEventTime <= m.provider.connections[key].subscribedAt
    ensures m.now - m.provider.connections[key].subscribedAt <= 75_000
  {
    ReachableInv(m);
    var p, lastTick := m.provider, m.nextTick - WATCHDOG_INTERVAL;
    var c := p.connections[key];
    assert ConnectionOk(c, key, p.timers, m.now, lastTick);
    if !c.connected && TimerBy(p.timers, key, c.subscribedAt + RESUBSCRIBE_LIMIT) {
      var t :| TimerFor(p.timers, t, key, c.subscribedAt + RESUBSCRIBE_LIMIT);
      assert TimerOk(t, m.now, lastTick);
    }
  }

  /**
   After k disconnects since the last event or the start of observation the next delay is min(1000 * 2^k, 30000) ms.
   */
  lemma {:induction false} BackoffFollowsHistory(m: Monitor, key: AgentKey)
    requires Reachable(m) && key in m.provider.connections
    ensures m.provider.connections[key].reconnectDelay == Min(1_000 * Pow2(Strikes(m.log, key)), 30_000)
  {
    ReachableInv(m);
    assert BackedOff(m.provider, m.log, key);
  }

  /** No identity ever has more than three reconnects pending, observed or not, and no timer is pending twice. */
  lemma {:induction false} AtMostThreePending(m: Monitor, key: AgentKey)
    requires Reachable(m)
    ensures |TimersOf(m.provider.timers, key)| <= 3
    ensures forall t | t in m.provider.timers :: m.provider.timers[t] == 1
  {
    ReachableInv(m);
    AtMostThreeTimers(m.provider.timers, key, m.now, m.nextTick - WATCHDOG_INTERVAL);
  }

  /**
   The list and the provider always agree on who is observed and on who is connected, side tables speak of listed
   agents only, and an agent shown as Connected was heard from in the last 60 s.
   */
  lemma {:induction false} ListMirrorsProvider(m: Monitor)
    requires Reachable(m)
    ensures DistinctKeys(m.list.agents) && Keys(m.list.agents) == m.provider.connections.Keys
    ensures m.list.health.Keys <= Keys(m.list.agents) && m.list.disks.Keys <= Keys(m.list.agents)
    ensures m.list.states.Keys == Keys(m.list.agents) && m.list.refreshed.Keys <= Keys(m.list.agents)
    ensures forall key | key in m.list.states && key in m.provider.connections ::
              m.list.states[key] == Connected <==> m.provider.connections[key].connected
    ensures forall key | key in m.list.states && m.list.states[key] == Connected && key in m.provider.connections ::
              m.now - m.provider.connections[key].lastEventTime <= 60_000
  {
    ReachableInv(m);
    forall key | key in m.provider.connections
      ensures ShownOk(m.provider, m.list, key)
      ensures ConnectionOk(m.provider.connections[key], key, m.provider.timers, m.now, m.nextTick - WATCHDOG_INTERVAL)
    {
    }
  }

  /** A view that only replays the model signals shows the rows of the list. */
  lemma {:induction false} ViewShowsList(m: Monitor)
    requires Reachable(m)
    ensures m.view == Rows(m.list)
  {
    ReachableInv(m);
  }

  // ---- hardcoded agents ------------------------------------------------------------------------------------

  /** The agent is listed as one the user added. */
  predicate ListedHardcoded(l: ListState, key: AgentKey) {
    exists a :: a in l.agents && a.key == key && a.source == Hardcoded
  }

  lemma {:induction false} HardcodedAt(l: ListState, key: AgentKey)
    requires DistinctKeys(l.agents)
    ensures ListedHardcoded(l, key) <==> Lists(l, key) && l.agents[IndexOf(l.agents, key)].source == Hardcoded
  {
    if ListedHardcoded(l, key) {
      var a :| a in l.agents && a.key == key && a.source == Hardcoded;
      var i :| 0 <= i < |l.agents| && l.agents[i] == a;
    }
  }

  /** The one step that may drop the agent: the user removes its row. */
  predicate RemovesRowOf(m: Monitor, a: Action, key: AgentKey) {
    a.RemoveRow? && 0 <= a.position < |m.list.agents| && m.list.agents[a.position].key == key
  }

  lemma {:induction false} StepKeepsHardcoded(m: Monitor, a: Action, key: AgentKey)
    requires Inv(m) && Enabled(m, a) && ListedHardcoded(m.list, key) && !RemovesRowOf(m, a, key)
    ensures ListedHardcoded(Step(m, a).list, key)
  {
    HardcodedAt(m.list, key);
    match a
    case WatchdogTick(order) => SlotsFollowed(m.list, CheckAllSignals(m.provider, order, m.now));
    case SseEvent(k, data) => SlotsFollowed(m.list, EventSignals(m.provider, k, data));
    case AgentFound(info) => AddKeepsHardcoded(m, info, key);
    case AgentLost(info) =>
      if Removable(m.list, info) { RemoveKeepsHardcoded(m.list, IndexOf(m.list.agents, info.key), key); }
    case RemoveRow(position) =>
      if 0 <= position < |m.list.agents| { RemoveKeepsHardcoded(m.list, position, key); }
    case _ =>
  }

  lemma {:induction false} AddKeepsHardcoded(m: Monitor, info: AgentInformation, key: AgentKey)
    requires Inv(m) && ListedHardcoded(m.list, key)
    ensures ListedHardcoded(AddAgentTo(m, info).list, key)
  {
    var l' := AddAgent(m.list, info);
    var a :| a in m.list.agents && a.key == key && a.source == Hardcoded;
    var i :| 0 <= i < |m.list.agents| && m.list.agents[i] == a;
    assert l'.agents[i].key == key && l'.agents[i].source == Hardcoded;
    AddKeys(m.list, info);
    SlotsFollowed(l', ObserveSignals(m.provider, info.key));
  }

  lemma {:induction false} RemoveKeepsHardcoded(l: ListState, at: nat, key: AgentKey)
    requires at < |l.agents| && l.agents[at].key != key && ListedHardcoded(l, key)
    ensures ListedHardcoded(RemoveAgentAt(l, at), key)
  {
    var a :| a in l.agents && a.key == key && a.source == Hardcoded;
    var i :| 0 <= i < |l.agents| && l.agents[i] == a;
    assert RemoveAgentAt(l, at).agents[if i < at then i else i - 1] == a;
  }

  /** The run never has the user remove the agent's row. */
  predicate UserKeeps(m: Monitor, actions: seq<Action>, key: AgentKey)
    requires IsRun(m, actions)
    decreases |actions|
  {
    actions == [] || (!RemovesRowOf(m, actions[0], key) && UserKeeps(Step(m, actions[0]), actions[1..], key))
  }

  /** No discoveries, losses, events or ticks ever remove or demote a hardcoded agent; only the user can. */
  lemma {:induction false} HardcodedAgentsStay(m: Monitor, actions: seq<Action>, key: AgentKey)
    requires Inv(m) && IsRun(m, actions) && UserKeeps(m, actions, key) && ListedHardcoded(m.list, key)
    ensures ListedHardcoded(After(m, actions).list, key)
    decreases |actions|
  {
    if actions != [] {
      StepKeepsHardcoded(m, actions[0], key);
      StepInv(m, actions[0]);
      HardcodedAgentsStay(Step(m, actions[0]), actions[1..], key);
    }
  }
}
