/** AgentsList: the rows the user sees, with their side tables, and the model signals views replay. */
module ListModel {
  import opened Sequences
  import opened Health
  import opened Aggregation
  import opened Agents
  import opened Provider

  datatype ListState = ListState(
    agents: seq<AgentInformation>,
    health: map<AgentKey, Health>,
    disks: map<AgentKey, seq<DiskInfo>>,
    states: map<AgentKey, ConnectionState>,
    refreshed: map<AgentKey, string>)

  /** Everything `data` answers for one row; name, host and port are the key. */
  datatype Row = Row(
    key: AgentKey, source: DetectionSource, health: Health, diskNames: seq<string>, diskData: seq<DiskInfo>,
    state: ConnectionState, refreshed: string)

  datatype Role = DetectionTypeRole | HealthRole | DiskNamesRole | DiskDataRole | StateRole | RefreshedRole

  /** A model signal, with the row contents a view reads when it arrives. */
  datatype ModelSignal =
    | RowInserted(at: nat, row: Row)
    | RowRemoved(at: nat)
    | DataChanged(at: nat, role: Role, row: Row)

  function DiskNames(disks: seq<DiskInfo>): seq<string> {
    seq(|disks|, i requires 0 <= i < |disks| => disks[i].name)
  }

  function RowOf(l: ListState, a: AgentInformation): Row {
    var disks := if a.key in l.disks then l.disks[a.key] else [];
    Row(a.key, a.source, if a.key in l.health then l.health[a.key] else Unknown, DiskNames(disks), disks,
        if a.key in l.states then l.states[a.key] else Disconnected,
        if a.key in l.refreshed then l.refreshed[a.key] else "")
  }

  function Rows(l: ListState): seq<Row> {
    seq(|l.agents|, i requires 0 <= i < |l.agents| => RowOf(l, l.agents[i]))
  }

  // ---- the view ---------------------------------------------------------------------------------------

  /** A view that copies only the role it is told about. */
  function Replay(view: seq<Row>, m: ModelSignal): seq<Row> {
    match m
    case RowInserted(at, row) => if at <= |view| then view[..at] + [row] + view[at..] else view
    case RowRemoved(at) => if at < |view| then view[..at] + view[at + 1..] else view
    case DataChanged(at, role, row) =>
      if at >= |view| then view
      else
        var before := view[at];
        view[at := match role
                   case DetectionTypeRole => before.(source := row.source)
                   case HealthRole => before.(health := row.health)
                   case DiskNamesRole => before.(diskNames := row.diskNames)
                   case DiskDataRole => before.(diskData := row.diskData)
                   case StateRole => before.(state := row.state)
                   case RefreshedRole => before.(refreshed := row.refreshed)]
  }

  function ReplayAll(view: seq<Row>, ms: seq<ModelSignal>): seq<Row>
    decreases |ms|
  {
    if ms == [] then view else ReplayAll(Replay(view, ms[0]), ms[1..])
  }

  lemma {:induction false} ReplayAllConcat(view: seq<Row>, a: seq<ModelSignal>, b: seq<ModelSignal>)
    ensures ReplayAll(view, a + b) == ReplayAll(ReplayAll(view, a), b)
    decreases |a|
  {
    if a == [] {
      assert a + b == b;
    } else {
      assert (a + b)[1..] == a[1..] + b;
      ReplayAllConcat(Replay(view, a[0]), a[1..], b);
    }
  }

  // ---- the operations ---------------------------------------------------------------------------------

  predicate Lists(l: ListState, key: AgentKey) {
    IndexOf(l.agents, key) < |l.agents|
  }

  predicate Promotes(l: ListState, info: AgentInformation) {
    Lists(l, info.key) && info.source == Hardcoded && l.agents[IndexOf(l.agents, info.key)].source == ZeroConf
  }

  function AddAgent(l: ListState, info: AgentInformation): ListState {
    if !Lists(l, info.key) then l.(agents := l.agents + [info])
    else if Promotes(l, info) then l.(agents := l.agents[IndexOf(l.agents, info.key) := info])
    else l
  }

  function AddChanges(l: ListState, info: AgentInformation): seq<ModelSignal> {
    var l' := AddAgent(l, info);
    if !Lists(l, info.key) then [RowInserted(|l.agents|, RowOf(l', info))]
    else if Promotes(l, info) then
      [DataChanged(IndexOf(l.agents, info.key), DetectionTypeRole, RowOf(l', info))]
    else []
  }

  function RemoveAgentAt(l: ListState, at: nat): ListState
    requires at < |l.agents|
  {
    var key := l.agents[at].key;
    ListState(l.agents[..at] + l.agents[at + 1..],
              l.health - {key}, l.disks - {key}, l.states - {key}, l.refreshed - {key})
  }

  /** A loss reported by discovery does not remove an agent the user added. */
  predicate Removable(l: ListState, info: AgentInformation) {
    Lists(l, info.key) && !(info.source == ZeroConf && l.agents[IndexOf(l.agents, info.key)].source == Hardcoded)
  }

  /** The slots connected to the provider's signals. */
  function Slot(l: ListState, s: Signal): ListState {
    if !Lists(l, s.key) then l
    else
      match s
      case ConnectionStateChanged(key, state) => l.(states := l.states[key := state])
      case StatusChanged(key, health) => l.(health := l.health[key := health])
      case DiskCollectionChanged(key, disks) => l.(disks := l.disks[key := disks])
      case LastRefreshedChanged(key, timestamp) => l.(refreshed := l.refreshed[key := timestamp])
  }

  function SlotChanges(l: ListState, s: Signal): seq<ModelSignal> {
    if !Lists(l, s.key) then []
    else
      var at, l' := IndexOf(l.agents, s.key), Slot(l, s);
      var row := RowOf(l', l.agents[at]);
      match s
      case ConnectionStateChanged(_, _) => [DataChanged(at, StateRole, row)]
      case StatusChanged(_, _) => [DataChanged(at, HealthRole, row)]
      case DiskCollectionChanged(_, _) => [DataChanged(at, DiskNamesRole, row), DataChanged(at, DiskDataRole, row)]
      case LastRefreshedChanged(_, _) => [DataChanged(at, RefreshedRole, row)]
  }

  function Slots(l: ListState, ss: seq<Signal>): ListState
    decreases |ss|
  {
    if ss == [] then l else Slots(Slot(l, ss[0]), ss[1..])
  }

  function SlotsChanges(l: ListState, ss: seq<Signal>): seq<ModelSignal>
    decreases |ss|
  {
    if ss == [] then [] else SlotChanges(l, ss[0]) + SlotsChanges(Slot(l, ss[0]), ss[1..])
  }

  lemma {:induction false} SlotsHead(l: ListState, ss: seq<Signal>, earlier: seq<ModelSignal>)
    requires ss != []
    ensures Slots(l, ss) == Slots(Slot(l, ss[0]), ss[1..])
    ensures earlier + SlotsChanges(l, ss) == earlier + SlotChanges(l, ss[0]) + SlotsChanges(Slot(l, ss[0]), ss[1..])
  {
    Associate(earlier, SlotChanges(l, ss[0]), SlotsChanges(Slot(l, ss[0]), ss[1..]));
  }

  lemma {:induction false} SlotsConcat(l: ListState, a: seq<Signal>, b: seq<Signal>)
    ensures Slots(l, a + b) == Slots(Slots(l, a), b)
    ensures SlotsChanges(l, a + b) == SlotsChanges(l, a) + SlotsChanges(Slots(l, a), b)
    decreases |a|
  {
    if a == [] {
      assert a + b == b;
    } else {
      var l1, rest := Slot(l, a[0]), a[1..];
      assert (a + b)[1..] == rest + b;
      SlotsConcat(l1, rest, b);
      Associate(SlotChanges(l, a[0]), SlotsChanges(l1, rest), SlotsChanges(Slots(l1, rest), b));
    }
  }

  // ---- views follow -----------------------------------------------------------------------------------

  /** A view one signal behind catches up if that signal's row replaces, or joins, the right one. */
  lemma {:induction false} ReplayOne(view: seq<Row>, m: ModelSignal)
    ensures ReplayAll(view, [m]) == Replay(view, m)
  {
    assert [m][1..] == [];
  }

  lemma {:induction false} AddFollowed(l: ListState, info: AgentInformation)
    requires DistinctKeys(l.agents)
    ensures ReplayAll(Rows(l), AddChanges(l, info)) == Rows(AddAgent(l, info))
  {
    if !Lists(l, info.key) {
      NewRowFollowed(l, info);
    } else if Promotes(l, info) {
      PromotionFollowed(l, info);
    }
  }

  lemma {:induction false} NewRowFollowed(l: ListState, info: AgentInformation)
    requires !Lists(l, info.key)
    ensures ReplayAll(Rows(l), AddChanges(l, info)) == Rows(AddAgent(l, info))
  {
    var l' := AddAgent(l, info);
    ReplayOne(Rows(l), AddChanges(l, info)[0]);
    assert Rows(l') == Rows(l) + [RowOf(l', info)];
  }

  lemma {:induction false} PromotionFollowed(l: ListState, info: AgentInformation)
    requires Promotes(l, info)
    ensures ReplayAll(Rows(l), AddChanges(l, info)) == Rows(AddAgent(l, info))
  {
    var l', at := AddAgent(l, info), IndexOf(l.agents, info.key);
    ReplayOne(Rows(l), AddChanges(l, info)[0]);
    assert RowOf(l', info) == RowOf(l, l.agents[at]).(source := info.source);
    assert Rows(l') == Rows(l)[at := RowOf(l', info)];
  }

  lemma {:induction false} AddKeys(l: ListState, info: AgentInformation)
    requires DistinctKeys(l.agents)
    ensures DistinctKeys(AddAgent(l, info).agents)
    ensures Keys(AddAgent(l, info).agents) == Keys(l.agents) + {info.key}
  {
    var at := IndexOf(l.agents, info.key);
    if !Lists(l, info.key) {
      KeysSnoc(l.agents, info);
    } else {
      assert l.agents[at] in l.agents;
      if Promotes(l, info) {
        KeysReplaced(l.agents, at, info);
      }
    }
  }

  lemma {:induction false} KeysSnoc(agents: seq<AgentInformation>, info: AgentInformation)
    ensures Keys(agents + [info]) == Keys(agents) + {info.key}
  {
    assert info in agents + [info];
    assert forall a | a in agents :: a in agents + [info];
  }

  lemma {:induction false} KeysReplaced(agents: seq<AgentInformation>, at: nat, info: AgentInformation)
    requires at < |agents| && agents[at].key == info.key
    ensures Keys(agents[at := info]) == Keys(agents)
  {
    var agents' := agents[at := info];
    forall key | key in Keys(agents) ensures key in Keys(agents') {
      var i :| 0 <= i < |agents| && agents[i].key == key;
      assert agents'[i] in agents';
    }
    forall key | key in Keys(agents') ensures key in Keys(agents) {
      var i :| 0 <= i < |agents'| && agents'[i].key == key;
      assert agents[i] in agents;
    }
  }

  lemma {:induction false} RemoveFollowed(l: ListState, at: nat)
    requires DistinctKeys(l.agents) && at < |l.agents|
    ensures ReplayAll(Rows(l), [RowRemoved(at)]) == Rows(RemoveAgentAt(l, at))
  {
    var l' := RemoveAgentAt(l, at);
    ReplayOne(Rows(l), RowRemoved(at));
    forall i | 0 <= i < |l'.agents| ensures Rows(l')[i] == Rows(l)[if i < at then i else i + 1] {
      RemovedRowSame(l, at, if i < at then i else i + 1);
    }
    assert Rows(l') == Rows(l)[..at] + Rows(l)[at + 1..];
  }

  lemma {:induction false} RemovedRowSame(l: ListState, at: nat, i: nat)
    requires DistinctKeys(l.agents) && at < |l.agents| && i < |l.agents| && i != at
    ensures RowOf(RemoveAgentAt(l, at), l.agents[i]) == RowOf(l, l.agents[i])
  {
  }

  lemma {:induction false} RemoveKeys(l: ListState, at: nat)
    requires DistinctKeys(l.agents) && at < |l.agents|
    ensures DistinctKeys(RemoveAgentAt(l, at).agents)
    ensures Keys(RemoveAgentAt(l, at).agents) == Keys(l.agents) - {l.agents[at].key}
  {
    var l' := RemoveAgentAt(l, at);
    forall i | 0 <= i < |l'.agents| ensures l'.agents[i] == l.agents[if i < at then i else i + 1] {
    }
    forall key | key in Keys(l.agents) && key != l.agents[at].key ensures key in Keys(l'.agents) {
      var i :| 0 <= i < |l.agents| && l.agents[i].key == key;
      assert l'.agents[if i < at then i else i - 1].key == key;
    }
  }

  lemma {:induction false} SlotRows(l: ListState, s: Signal)
    requires DistinctKeys(l.agents) && Lists(l, s.key)
    ensures var at, l' := IndexOf(l.agents, s.key), Slot(l, s);
            l'.agents == l.agents && Rows(l') == Rows(l)[at := RowOf(l', l.agents[at])]
  {
    var at, l' := IndexOf(l.agents, s.key), Slot(l, s);
    forall i | 0 <= i < |l.agents| && i != at ensures RowOf(l', l.agents[i]) == RowOf(l, l.agents[i]) {
      SlotKeepsRow(l, s, l.agents[i]);
    }
  }

  lemma {:induction false} SlotKeepsRow(l: ListState, s: Signal, a: AgentInformation)
    requires a.key != s.key
    ensures RowOf(Slot(l, s), a) == RowOf(l, a)
  {
  }

  lemma {:induction false} SlotReplay(view: seq<Row>, at: nat, s: Signal, row: Row, ms: seq<ModelSignal>)
    requires at < |view|
    requires match s
             case ConnectionStateChanged(_, _) =>
               row == view[at].(state := row.state) && ms == [DataChanged(at, StateRole, row)]
             case StatusChanged(_, _) =>
               row == view[at].(health := row.health) && ms == [DataChanged(at, HealthRole, row)]
             case DiskCollectionChanged(_, _) =>
               && row == view[at].(diskNames := row.diskNames, diskData := row.diskData)
               && ms == [DataChanged(at, DiskNamesRole, row), DataChanged(at, DiskDataRole, row)]
             case LastRefreshedChanged(_, _) =>
               row == view[at].(refreshed := row.refreshed) && ms == [DataChanged(at, RefreshedRole, row)]
    ensures ReplayAll(view, ms) == view[at := row]
  {
    if s.DiskCollectionChanged? {
      assert [ms[0]] + [ms[1]] == ms;
      ReplayAllConcat(view, [ms[0]], [ms[1]]);
      ReplayOne(view, ms[0]);
      ReplayOne(Replay(view, ms[0]), ms[1]);
    } else {
      ReplayOne(view, ms[0]);
    }
  }

  lemma {:induction false} SlotFollowed(l: ListState, s: Signal)
    requires DistinctKeys(l.agents)
    ensures ReplayAll(Rows(l), SlotChanges(l, s)) == Rows(Slot(l, s))
    ensures Slot(l, s).agents == l.agents
  {
    if Lists(l, s.key) {
      var at := IndexOf(l.agents, s.key);
      SlotRows(l, s);
      SlotRow(l, s);
      SlotReplay(Rows(l), at, s, RowOf(Slot(l, s), l.agents[at]), SlotChanges(l, s));
    }
  }

  /** A slot changes, of its own row, just the roles it announces. */
  lemma {:induction false} SlotRow(l: ListState, s: Signal)
    requires Lists(l, s.key)
    ensures var a := l.agents[IndexOf(l.agents, s.key)];
            var before, after := RowOf(l, a), RowOf(Slot(l, s), a);
            match s
            case ConnectionStateChanged(_, _) => after == before.(state := after.state)
            case StatusChanged(_, _) => after == before.(health := after.health)
            case DiskCollectionChanged(_, _) =>
              after == before.(diskNames := after.diskNames, diskData := after.diskData)
            case LastRefreshedChanged(_, _) => after == before.(refreshed := after.refreshed)
  {
  }

  lemma {:induction false} SlotsFollowed(l: ListState, ss: seq<Signal>)
    requires DistinctKeys(l.agents)
    ensures ReplayAll(Rows(l), SlotsChanges(l, ss)) == Rows(Slots(l, ss))
    ensures Slots(l, ss).agents == l.agents
    decreases |ss|
  {
    if ss != [] {
      SlotFollowed(l, ss[0]);
      SlotsFollowed(Slot(l, ss[0]), ss[1..]);
      ReplayAllConcat(Rows(l), SlotChanges(l, ss[0]), SlotsChanges(Slot(l, ss[0]), ss[1..]));
    }
  }
}

/** AgentsList as an object; it drives the provider and serves its signals. */
module AgentsListObject {
  import opened Health
  import opened Aggregation
  import opened Agents
  import opened Provider
  import opened StatusProviderObject
  import opened L = ListModel

  class AgentsList {
    var agents: seq<AgentInformation>
    var health: map<AgentKey, Health>
    var diskInfoCollection: map<AgentKey, seq<DiskInfo>>
    var connectionStates: map<AgentKey, ConnectionState>
    var lastRefreshed: map<AgentKey, string>
    var changes: seq<ModelSignal>  // model signals emitted so far
    const statusProvider: AgentsStatusProvider

    function State(): ListState
      reads this
    {
      ListState(agents, health, diskInfoCollection, connectionStates, lastRefreshed)
    }

    constructor (statusProvider: AgentsStatusProvider)
      ensures State() == ListState([], map[], map[], map[], map[]) && changes == []
      ensures this.statusProvider == statusProvider
    {
      agents, health, diskInfoCollection, connectionStates, lastRefreshed := [], map[], map[], map[], map[];
      changes := [];
      this.statusProvider := statusProvider;
    }

    /** std::find over the rows. */
    method Find(key: AgentKey) returns (at: nat)
      ensures at == IndexOf(agents, key)
    {
      at := 0;
      while at < |agents| && agents[at].key != key
        invariant at <= |agents|
        invariant at + IndexOf(agents[at..], key) == IndexOf(agents, key)
      {
        at := at + 1;
      }
    }

    method AddAgent(info: AgentInformation, now: int)
      requires statusProvider.emitted == []
      modifies this, statusProvider
      ensures var added := L.AddAgent(old(State()), info);
              var signals := if Lists(old(State()), info.key) then []
                             else ObserveSignals(old(statusProvider.State()), info.key);
              && State() == Slots(added, signals)
              && changes == old(changes) + AddChanges(old(State()), info) + SlotsChanges(added, signals)
      ensures statusProvider.State() == if Lists(old(State()), info.key) then old(statusProvider.State())
                                        else Observe(old(statusProvider.State()), info.key, now)
      ensures statusProvider.emitted == []
    {
      var at := Find(info.key);
      if at == |agents| {
        agents := agents + [info];
        changes := changes + [RowInserted(|agents| - 1, RowOf(State(), info))];
        statusProvider.Observe(info.key, now);
        ServeSignals();
      } else if info.source == Hardcoded && agents[at].source == ZeroConf {
        agents := agents[at := info];
        changes := changes + [DataChanged(at, DetectionTypeRole, RowOf(State(), info))];
      }
    }

    method RemoveAgent(info: AgentInformation)
      modifies this, statusProvider`connections
      ensures var at := IndexOf(old(agents), info.key);
              if Removable(old(State()), info) then
                && State() == L.RemoveAgentAt(old(State()), at)
                && changes == old(changes) + [RowRemoved(at)]
                && statusProvider.State() == Unobserve(old(statusProvider.State()), info.key)
              else
                State() == old(State()) && changes == old(changes)
                && statusProvider.State() == old(statusProvider.State())
    {
      var at := Find(info.key);
      if at < |agents| {
        if info.source == ZeroConf && agents[at].source == Hardcoded {
          return;
        }
        RemoveAgentAt(at);
      }
    }

    method RemoveAgentAt(position: int)
      modifies this, statusProvider`connections
      ensures if 0 <= position < |old(agents)| then
                && State() == L.RemoveAgentAt(old(State()), position)
                && changes == old(changes) + [RowRemoved(position)]
                && statusProvider.State() == Unobserve(old(statusProvider.State()), old(agents)[position].key)
              else
                State() == old(State()) && changes == old(changes)
                && statusProvider.State() == old(statusProvider.State())
    {
      if position < 0 || position >= |agents| {
        return;
      }
      var key := agents[position].key;
      agents := agents[..position] + agents[position + 1..];
      health := health - {key};
      diskInfoCollection := diskInfoCollection - {key};
      connectionStates := connectionStates - {key};
      lastRefreshed := lastRefreshed - {key};
      changes := changes + [RowRemoved(position)];
      statusProvider.Unobserve(key);
    }

    /** updateAgentHealth, updateAgentDiskInfoCollection, updateConnectionState, updateLastRefreshed. */
    method Serve(s: Signal)
      modifies this
      ensures State() == Slot(old(State()), s)
      ensures changes == old(changes) + SlotChanges(old(State()), s)
    {
      var at := Find(s.key);
      if at == |agents| {
        return;
      }
      match s {
        case StatusChanged(key, h) =>
          health := health[key := h];
          changes := changes + [DataChanged(at, HealthRole, RowOf(State(), agents[at]))];
        case DiskCollectionChanged(key, disks) =>
          diskInfoCollection := diskInfoCollection[key := disks];
          changes := changes + [DataChanged(at, DiskNamesRole, RowOf(State(), agents[at]))];
          changes := changes + [DataChanged(at, DiskDataRole, RowOf(State(), agents[at]))];
        case ConnectionStateChanged(key, state) =>
          connectionStates := connectionStates[key := state];
          changes := changes + [DataChanged(at, StateRole, RowOf(State(), agents[at]))];
        case LastRefreshedChanged(key, timestamp) =>
          lastRefreshed := lastRefreshed[key := timestamp];
          changes := changes + [DataChanged(at, RefreshedRole, RowOf(State(), agents[at]))];
      }
    }

    /** Calls the slots for what the provider has emitted, in order. */
    method ServeSignals()
      modifies this, statusProvider`emitted
      ensures State() == Slots(old(State()), old(statusProvider.emitted))
      ensures changes == old(changes) + SlotsChanges(old(State()), old(statusProvider.emitted))
      ensures statusProvider.emitted == []
    {
      ghost var l0, ss0, earlier := State(), statusProvider.emitted, changes;
      while statusProvider.emitted != []
        invariant Slots(State(), statusProvider.emitted) == Slots(l0, ss0)
        invariant changes + SlotsChanges(State(), statusProvider.emitted) == earlier + SlotsChanges(l0, ss0)
        decreases |statusProvider.emitted|
      {
        SlotsHead(State(), statusProvider.emitted, changes);
        var s := statusProvider.emitted[0];
        statusProvider.emitted := statusProvider.emitted[1..];
        Serve(s);
      }
    }
  }
}
