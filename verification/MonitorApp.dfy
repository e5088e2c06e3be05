/** main() of the monitor: the two objects wired together do what the composed machine says. */
module MonitorApp {
  import opened Agents
  import opened Provider
  import opened StatusProviderObject
  import opened ListModel
  import opened AgentsListObject
  import M = Monitor

  class App {
    const provider: AgentsStatusProvider
    const list: AgentsList
    var now: int
    var nextTick: int
    ghost var log: seq<Signal>

    ghost predicate Valid()
      reads this, provider, list
    {
      list.statusProvider == provider && provider.emitted == []
    }

    ghost function State(): M.Monitor
      reads this, provider, list
    {
      M.Monitor(now, nextTick, provider.State(), list.State(), ReplayAll([], list.changes), log)
    }

    constructor (start: int)
      ensures Valid() && State() == M.Initial(start)
    {
      var statusProvider := new AgentsStatusProvider();
      list := new AgentsList(statusProvider);
      provider := statusProvider;
      now := start;
      nextTick := start + WATCHDOG_INTERVAL;
      log := [];
    }

    /** Delivers what the provider has just emitted. */
    method Serve()
      requires list.statusProvider == provider
      modifies this`log, list, provider`emitted
      ensures Valid()
      ensures State() == M.Deliver(old(State()), old(provider.emitted))
    {
      ReplayAllConcat([], list.changes, SlotsChanges(list.State(), provider.emitted));
      log := log + provider.emitted;
      list.ServeSignals();
    }

    method WatchdogTick(order: seq<AgentKey>)
      requires Valid() && M.Enabled(State(), M.WatchdogTick(order))
      modifies this, list, provider
      ensures Valid() && State() == M.Step(old(State()), M.WatchdogTick(order))
    {
      nextTick := nextTick + WATCHDOG_INTERVAL;
      provider.CheckConnections(order, now);
      assert provider.emitted == CheckAllSignals(old(provider.State()), order, now);
      Serve();
    }

    method ReconnectTimer(timer: Timer)
      requires Valid() && M.Enabled(State(), M.ReconnectTimer(timer))
      modifies provider
      ensures Valid() && State() == M.Step(old(State()), M.ReconnectTimer(timer))
    {
      provider.ReconnectTimerFired(timer, now);
    }

    method SseEvent(key: AgentKey, data: Payload)
      requires Valid()
      modifies this, list, provider
      ensures Valid() && State() == M.Step(old(State()), M.SseEvent(key, data))
    {
      provider.HandleSseEvent(key, data, now);
      assert provider.emitted == EventSignals(old(provider.State()), key, data);
      Serve();
    }

    method AgentFound(info: AgentInformation)
      requires Valid()
      modifies this, list, provider
      ensures Valid() && State() == M.Step(old(State()), M.AgentFound(info))
    {
      ghost var l, p := list.State(), provider.State();
      ghost var signals := if Lists(l, info.key) then [] else ObserveSignals(p, info.key);
      ReplayAllConcat([], list.changes + AddChanges(l, info), SlotsChanges(AddAgent(l, info), signals));
      ReplayAllConcat([], list.changes, AddChanges(l, info));
      list.AddAgent(info, now);
      log := log + signals;
    }

    method AgentLost(info: AgentInformation)
      requires Valid() && M.Enabled(State(), M.AgentLost(info))
      modifies list, provider
      ensures Valid() && State() == M.Step(old(State()), M.AgentLost(info))
    {
      ReplayAllConcat([], list.changes, [RowRemoved(IndexOf(list.agents, info.key))]);
      list.RemoveAgent(info);
    }

    method RemoveRow(position: int)
      requires Valid()
      modifies list, provider
      ensures Valid() && State() == M.Step(old(State()), M.RemoveRow(position))
    {
      if 0 <= position < |list.agents| {
        ReplayAllConcat([], list.changes, [RowRemoved(position)]);
      }
      list.RemoveAgentAt(position);
    }
  }
}
