/** Configuration.cpp: the list of agents as one settings string. */
module Configuration {
  import opened Wrappers
  import opened Text
  import opened Agents
  import Base64

  // ---- QString ------------------------------------------------------------------------------------------

  /** QString::split, which keeps empty parts. */
  function SplitKeeping(s: string, c: char): seq<string>
    decreases |s|
  {
    var i := Text.IndexOf(s, c);
    if i == |s| then [s] else [s[..i]] + SplitKeeping(s[i + 1..], c)
  }

  /** QStringList::join. */
  function Join(parts: seq<string>, c: char): string {
    if parts == [] then "" else if |parts| == 1 then parts[0] else parts[0] + [c] + Join(parts[1..], c)
  }

  function DropBackSpaces(s: string): string {
    if s != "" && IsSpace(s[|s| - 1]) then DropBackSpaces(s[..|s| - 1]) else s
  }

  /** QString::toInt: blanks at the ends and a sign are allowed; anything else that is no number reads as 0. */
  function ToInt(s: string): int {
    var t := DropBackSpaces(SkipSpaces(s));
    var digits := if t != "" && (t[0] == '-' || t[0] == '+') then t[1..] else t;
    if digits == "" || !AllDigits(digits) then 0
    else
      var magnitude: int := Value(digits, 10);
      var n := if t[0] == '-' then -magnitude else magnitude;
      if -INT_MAX - 1 <= n <= INT_MAX then n else 0
  }

  // ---- one agent ----------------------------------------------------------------------------------------

  function SourceCode(source: DetectionSource): int {
    match source
    case ZeroConf => 0
    case Hardcoded => 1
    case Unnamed(code) => code
  }

  /** static_cast to the enumeration. */
  function SourceOf(code: int): DetectionSource {
    if code == 0 then ZeroConf else if code == 1 then Hardcoded else Unnamed(code)
  }

  /** QString::number. */
  function Number(n: int): string {
    if n < 0 then "-" + Decimal(-n) else Decimal(n)
  }

  function Fields(agent: AgentInformation): seq<string> {
    [Base64.Encode(agent.key.name), agent.key.host, Number(agent.key.port), Number(SourceCode(agent.source))]
  }

  method AgentToString(agent: AgentInformation) returns (result: string)
    ensures result == Join(Fields(agent), ',')
  {
    var name, host := Base64.Encode(agent.key.name), agent.key.host;
    var port, source := Number(agent.key.port), Number(SourceCode(agent.source));
    result := "";
    result := result + name;
    result := result + ",";
    result := result + host;
    result := result + ",";
    result := result + port;
    result := result + ",";
    result := result + source;
    FourAppended(name, host, port, source);
  }

  lemma {:induction false} FourAppended(a: string, b: string, c: string, d: string)
    ensures Join([a, b, c, d], ',') == "" + a + "," + b + "," + c + "," + d
  {
    JoinFour([a, b, c, d], ',');
    assert "" + a == a;
  }

  lemma {:induction false} JoinFour(parts: seq<string>, c: char)
    requires |parts| == 4
    ensures Join(parts, c) == parts[0] + [c] + parts[1] + [c] + parts[2] + [c] + parts[3]
  {
    var p1, p2, p3 := parts[1..], parts[1..][1..], parts[1..][1..][1..];
    assert p3 == [parts[3]] && p2 == [parts[2], parts[3]] && p1[0] == parts[1];
    assert Join(p2, c) == parts[2] + [c] + parts[3];
    assert Join(p1, c) == parts[1] + [c] + Join(p2, c);
  }

  /** `None` unless there are four fields; the constructor keeps 16 bits of the port. */
  function StringToAgent(rawAgent: string): Option<AgentInformation> {
    var parts := SplitKeeping(rawAgent, ',');
    if |parts| != 4 then None
    else
      var key := AgentKey(Base64.Decode(parts[0]), parts[1], ToInt(parts[2]) % 65536);
      Some(AgentInformation(key, SourceOf(ToInt(parts[3]))))
  }

  // ---- the list -----------------------------------------------------------------------------------------

  function Texts(agents: seq<AgentInformation>): seq<string> {
    seq(|agents|, i requires 0 <= i < |agents| => Join(Fields(agents[i]), ','))
  }

  method AgentsToString(agents: seq<AgentInformation>) returns (result: string)
    ensures result == Join(Texts(agents), ';')
  {
    var list: seq<string> := [];
    for i := 0 to |agents|
      invariant list == Texts(agents[..i])
    {
      var text := AgentToString(agents[i]);
      list := list + [text];
    }
    assert agents[..|agents|] == agents;
    result := Join(list, ';');
  }

  function ReadAll(parts: seq<string>): seq<AgentInformation> {
    if parts == [] then []
    else
      var info, rest := StringToAgent(parts[0]), ReadAll(parts[1..]);
      if info.Some? then [info.value] + rest else rest
  }

  method StringToAgents(rawAgentsList: string) returns (result: seq<AgentInformation>)
    ensures result == ReadAll(SplitKeeping(rawAgentsList, ';'))
  {
    var rest := SplitKeeping(rawAgentsList, ';');
    result := [];
    while rest != []
      invariant result + ReadAll(rest) == ReadAll(SplitKeeping(rawAgentsList, ';'))
      decreases |rest|
    {
      var info := StringToAgent(rest[0]);
      if info.Some? {
        result := result + [info.value];
      }
      rest := rest[1..];
    }
  }

  // ---- splitting undoes joining -------------------------------------------------------------------------

  lemma {:induction false} SplitHead(part: string, c: char, rest: string)
    requires c !in part
    ensures SplitKeeping(part + [c] + rest, c) == [part] + SplitKeeping(rest, c)
  {
    var s := part + [c] + rest;
    assert forall j | 0 <= j < |part| :: s[j] == part[j] && part[j] in part;
    IndexOfFirst(s, c, |part|);
    assert s[..|part|] == part && s[|part| + 1..] == rest;
  }

  predicate Free(parts: seq<string>, c: char) {
    forall i | 0 <= i < |parts| :: c !in parts[i]
  }

  lemma {:induction false} SplitJoin(parts: seq<string>, c: char)
    requires Free(parts, c)
    ensures SplitKeeping(Join(parts, c), c) == if parts == [] then [""] else parts
  {
    if |parts| == 1 {
      IndexOfNone(parts[0], c);
    } else if |parts| > 1 {
      SplitHead(parts[0], c, Join(parts[1..], c));
      SplitJoin(parts[1..], c);
    }
  }

  // ---- numbers ------------------------------------------------------------------------------------------

  /** A number is read back if it fits into 32 bits, and reads as 0 otherwise. */
  lemma {:induction false} NumberReads(n: int)
    ensures ToInt(Number(n)) == if -2_147_483_648 <= n <= 2_147_483_647 then n else 0
  {
    var magnitude := if n < 0 then -n else n;
    var digits, s := Decimal(magnitude), Number(n);
    DecimalDigits(magnitude);
    assert IsDigit(digits[0]) && IsDigit(digits[|digits| - 1]);
    assert s[|s| - 1] == digits[|digits| - 1];
    if n < 0 {
      assert s[1..] == digits;
    }
  }

  lemma {:induction false} DropBackSpacesKeeps(s: string, i: nat)
    requires i < |s| && !IsSpace(s[i])
    ensures i < |DropBackSpaces(s)| && DropBackSpaces(s)[i] == s[i]
  {
    if IsSpace(s[|s| - 1]) { DropBackSpacesKeeps(s[..|s| - 1], i); }
  }

  lemma {:induction false} SkipSpacesKeeps(s: string, i: nat) returns (j: nat)
    requires i < |s| && !IsSpace(s[i])
    ensures j < |SkipSpaces(s)| && SkipSpaces(s)[j] == s[i]
  {
    if IsSpace(s[0]) { j := SkipSpacesKeeps(s[1..], i - 1); } else { j := i; }
  }

  /** A text with anything but digits, signs and blanks reads as 0. */
  lemma {:induction false} NonNumberReadsAsZero(s: string, i: nat)
    requires i < |s| && !IsSpace(s[i]) && !IsDigit(s[i]) && s[i] != '-' && s[i] != '+'
    ensures ToInt(s) == 0
  {
    var j := SkipSpacesKeeps(s, i);
    var u := SkipSpaces(s);
    DropBackSpacesKeeps(u, j);
    var t := DropBackSpaces(u);
    var digits := if t != "" && (t[0] == '-' || t[0] == '+') then t[1..] else t;
    assert exists k :: 0 <= k < |digits| && digits[k] == s[i] by {
      assert digits == t ==> digits[j] == s[i];
      assert digits == t[1..] && t != digits ==> j > 0 && digits[j - 1] == s[i];
    }
  }

  lemma {:induction false} NumberHasNoSeparator(n: int)
    ensures ',' !in Number(n) && ';' !in Number(n)
  {
    var magnitude := if n < 0 then -n else n;
    DecimalDigits(magnitude);
    DigitsHaveNoSeparator(Decimal(magnitude));
  }

  lemma {:induction false} DigitsHaveNoSeparator(digits: string)
    requires AllDigits(digits)
    ensures ',' !in digits && ';' !in digits
  {
    forall c | c in digits ensures IsDigit(c) {
      var i :| 0 <= i < |digits| && digits[i] == c;
    }
  }

  // ---- round trip ---------------------------------------------------------------------------------------

  predicate HostOk(host: string) {
    ',' !in host && ';' !in host
  }

  /** A value the enumeration can have; its enumerators are 0 and 1. */
  predicate SourceOk(source: DetectionSource) {
    source.Unnamed? ==> -INT_MAX - 1 <= source.code <= INT_MAX && source.code != 0 && source.code != 1
  }

  predicate Storable(agent: AgentInformation) {
    HostOk(agent.key.host) && SourceOk(agent.source)
  }

  lemma {:induction false} FieldsFree(agent: AgentInformation)
    requires Storable(agent)
    ensures Free(Fields(agent), ',') && Free(Fields(agent), ';')
  {
    Base64.EncodedHasNoSeparator(agent.key.name);
    NumberHasNoSeparator(agent.key.port);
    NumberHasNoSeparator(SourceCode(agent.source));
  }

  lemma {:induction false} AgentRoundTrip(agent: AgentInformation)
    requires Storable(agent)
    ensures StringToAgent(Join(Fields(agent), ',')) == Some(agent)
  {
    FieldsFree(agent);
    SplitJoin(Fields(agent), ',');
    Base64.DecodeEncode(agent.key.name);
    NumberReads(agent.key.port);
    NumberReads(SourceCode(agent.source));
    AgentOfFields(Join(Fields(agent), ','), Fields(agent), agent);
  }

  lemma {:induction false} AgentOfFields(text: string, fields: seq<string>, agent: AgentInformation)
    requires SplitKeeping(text, ',') == fields && |fields| == 4 && SourceOk(agent.source)
    requires Base64.Decode(fields[0]) == agent.key.name && fields[1] == agent.key.host
    requires ToInt(fields[2]) == agent.key.port && ToInt(fields[3]) == SourceCode(agent.source)
    ensures StringToAgent(text) == Some(agent)
  {
  }

  lemma {:induction false} JoinFree(parts: seq<string>, c: char, d: char)
    requires Free(parts, d) && c != d
    ensures d !in Join(parts, c)
  {
    if |parts| > 1 {
      JoinFree(parts[1..], c, d);
    }
  }

  predicate AllStorable(agents: seq<AgentInformation>) {
    forall i | 0 <= i < |agents| :: Storable(agents[i])
  }

  lemma {:induction false} TextsFree(agents: seq<AgentInformation>)
    requires AllStorable(agents)
    ensures Free(Texts(agents), ';')
  {
    forall i | 0 <= i < |agents| ensures ';' !in Texts(agents)[i] {
      FieldsFree(agents[i]);
      JoinFree(Fields(agents[i]), ',', ';');
    }
  }

  lemma {:induction false} ReadAllTexts(agents: seq<AgentInformation>)
    requires AllStorable(agents)
    ensures ReadAll(Texts(agents)) == agents
  {
    if agents != [] {
      AgentRoundTrip(agents[0]);
      ReadAllHead(Join(Fields(agents[0]), ','), Texts(agents[1..]), agents[0]);
      TextsHead(agents);
      ReadAllTexts(agents[1..]);
      assert agents == [agents[0]] + agents[1..];
    }
  }

  lemma {:induction false} TextsHead(agents: seq<AgentInformation>)
    requires agents != []
    ensures Texts(agents) == [Join(Fields(agents[0]), ',')] + Texts(agents[1..])
  {
  }

  lemma {:induction false} ReadAllHead(text: string, rest: seq<string>, agent: AgentInformation)
    requires StringToAgent(text) == Some(agent)
    ensures ReadAll([text] + rest) == [agent] + ReadAll(rest)
  {
    assert ([text] + rest)[1..] == rest;
  }

  /** What `readAgents` gives after `storeAgents`. */
  function Reread(agents: seq<AgentInformation>): seq<AgentInformation> {
    ReadAll(SplitKeeping(Join(Texts(agents), ';'), ';'))
  }

  /** Any list of agents, the empty one included, is read back as it was stored, whatever the names. */
  lemma {:induction false} AgentsRoundTrip(agents: seq<AgentInformation>)
    requires AllStorable(agents)
    ensures Reread(agents) == agents
  {
    TextsFree(agents);
    SplitJoin(Texts(agents), ';');
    ReadAllTexts(agents);
    if agents == [] {
      EmptyTextIsNoAgent();
    }
  }

  lemma {:induction false} EmptyTextIsNoAgent()
    ensures ReadAll([""]) == []
  {
    assert SplitKeeping("", ',') == [""];
    assert [""][1..] == [];
  }

  // ---- what else a settings file may hold -----------------------------------------------------------------

  lemma {:induction false} PartCount(s: string, c: char)
    ensures |SplitKeeping(s, c)| == multiset(s)[c] + 1
    decreases |s|
  {
    var i := Text.IndexOf(s, c);
    if i == |s| {
      assert c !in s;
    } else {
      assert s == s[..i] + [c] + s[i + 1..];
      assert c !in s[..i];
      PartCount(s[i + 1..], c);
    }
  }

  /** The text of a stored agent, or some other text without a semicolon that has not exactly three commas. */
  datatype Part = Stored(agent: AgentInformation) | Junk(text: string)

  predicate PartOk(part: Part) {
    match part
    case Stored(agent) => Storable(agent)
    case Junk(text) => ';' !in text && multiset(text)[','] != 3
  }

  function PartText(part: Part): string {
    match part case Stored(agent) => Join(Fields(agent), ',') case Junk(text) => text
  }

  function PartTexts(parts: seq<Part>): seq<string> {
    seq(|parts|, i requires 0 <= i < |parts| => PartText(parts[i]))
  }

  function AgentsOf(parts: seq<Part>): seq<AgentInformation> {
    if parts == [] then [] else (if parts[0].Stored? then [parts[0].agent] else []) + AgentsOf(parts[1..])
  }

  lemma {:induction false} PartReads(part: Part, rest: seq<string>)
    requires PartOk(part)
    ensures ';' !in PartText(part)
    ensures ReadAll([PartText(part)] + rest) == (if part.Stored? then [part.agent] else []) + ReadAll(rest)
  {
    assert ([PartText(part)] + rest)[1..] == rest;
    match part
    case Stored(agent) =>
      AgentRoundTrip(agent);
      FieldsFree(agent);
      JoinFree(Fields(agent), ',', ';');
    case Junk(text) => PartCount(text, ',');
  }

  lemma {:induction false} PartsRead(parts: seq<Part>)
    requires forall i | 0 <= i < |parts| :: PartOk(parts[i])
    ensures Free(PartTexts(parts), ';') && ReadAll(PartTexts(parts)) == AgentsOf(parts)
  {
    if parts != [] {
      PartReads(parts[0], PartTexts(parts[1..]));
      PartsRead(parts[1..]);
      assert PartTexts(parts) == [PartText(parts[0])] + PartTexts(parts[1..]);
    }
  }

  /** Agents are read back whatever stands between them; what is no agent is skipped. */
  lemma {:induction false} JunkIsSkipped(parts: seq<Part>)
    requires forall i | 0 <= i < |parts| :: PartOk(parts[i])
    ensures ReadAll(SplitKeeping(Join(PartTexts(parts), ';'), ';')) == AgentsOf(parts)
  {
    PartsRead(parts);
    SplitJoin(PartTexts(parts), ';');
    if parts == [] {
      EmptyTextIsNoAgent();
    }
  }

  /** A number as the settings are read: 0 if it does not fit into 32 bits. */
  function Fitting(n: int): int {
    if -2_147_483_648 <= n <= 2_147_483_647 then n else 0
  }

  /**
   Any four fields make an agent: the port is cut to 16 bits, and 0 and 1 are the two sources, found by discovery and
   added by the user.
   */
  lemma {:induction false} FourFieldsRead(name: seq<byte>, host: string, port: int, source: int)
    requires HostOk(host)
    ensures var code := Fitting(source);
            StringToAgent(Base64.Encode(name) + "," + host + "," + Number(port) + "," + Number(source))
            == Some(AgentInformation(AgentKey(name, host, Fitting(port) % 65_536),
                                     if code == 0 then ZeroConf else if code == 1 then Hardcoded else Unnamed(code)))
  {
    var fields := [Base64.Encode(name), host, Number(port), Number(source)];
    Base64.EncodedHasNoSeparator(name);
    NumberHasNoSeparator(port);
    NumberHasNoSeparator(source);
    SplitJoin(fields, ',');
    Base64.DecodeEncode(name);
    NumberReads(port);
    NumberReads(source);
    FourAppended(fields[0], host, fields[2], fields[3]);
    assert "" + fields[0] == fields[0];
  }
}

/** storeHardcodedAgents and restoreHardcodedAgents of the monitor's main.cpp. */
module Persistence {
  import opened Agents
  import opened ListModel
  import opened MonitorTheorems
  import M = Monitor
  import P = Provider
  import MonitorApp
  import C = Configuration

  /** copy_if of the agents the user added, in row order. */
  function HardcodedOf(agents: seq<AgentInformation>): seq<AgentInformation> {
    if agents == [] then []
    else
      var n := |agents| - 1;
      HardcodedOf(agents[..n]) + if agents[n].source == Hardcoded then [agents[n]] else []
  }

  method StoreHardcodedAgents(allAgents: seq<AgentInformation>) returns (stored: string)
    ensures stored == C.Join(C.Texts(HardcodedOf(allAgents)), ';')
  {
    var hardcodedAgents: seq<AgentInformation> := [];
    for i := 0 to |allAgents|
      invariant hardcodedAgents == HardcodedOf(allAgents[..i])
    {
      assert allAgents[..i + 1][..i] == allAgents[..i];
      if allAgents[i].source == Hardcoded {
        hardcodedAgents := hardcodedAgents + [allAgents[i]];
      }
    }
    assert allAgents[..|allAgents|] == allAgents;
    stored := C.AgentsToString(hardcodedAgents);
  }

  /** The machine after each agent has been found, in order. */
  function FoundAll(m: M.Monitor, infos: seq<AgentInformation>): M.Monitor
    decreases |infos|
  {
    if infos == [] then m else FoundAll(M.Step(m, M.AgentFound(infos[0])), infos[1..])
  }

  method RestoreHardcodedAgents(stored: string, app: MonitorApp.App)
    requires app.Valid()
    modifies app, app.list, app.provider
    ensures app.Valid()
    ensures app.State() == FoundAll(old(app.State()), C.ReadAll(C.SplitKeeping(stored, ';')))
  {
    var rest := C.StringToAgents(stored);
    while rest != []
      invariant app.Valid()
      invariant FoundAll(app.State(), rest) == FoundAll(old(app.State()), C.ReadAll(C.SplitKeeping(stored, ';')))
      decreases |rest|
    {
      app.AgentFound(rest[0]);
      rest := rest[1..];
    }
  }

  // ---- the same agents next start -----------------------------------------------------------------------

  lemma {:induction false} HardcodedOfShape(agents: seq<AgentInformation>)
    requires DistinctKeys(agents)
    ensures DistinctKeys(HardcodedOf(agents))
    ensures forall a :: a in HardcodedOf(agents) <==> a in agents && a.source == Hardcoded
  {
    if agents != [] {
      var n := |agents| - 1;
      HardcodedOfShape(agents[..n]);
      if agents[n].source != Hardcoded {
        assert HardcodedOf(agents[..n]) + [] == HardcodedOf(agents[..n]);
      }
    }
  }

  lemma {:induction false} HardcodedPosition(agents: seq<AgentInformation>, i: nat) returns (p: nat)
    requires i < |agents| && agents[i].source == Hardcoded
    ensures p < |HardcodedOf(agents)| && HardcodedOf(agents)[p] == agents[i]
  {
    var n := |agents| - 1;
    if i < n { p := HardcodedPosition(agents[..n], i); } else { p := |HardcodedOf(agents[..n])|; }
  }

  /** The stored agents are in row order. */
  lemma {:induction false} HardcodedInOrder(agents: seq<AgentInformation>, i: nat, j: nat) returns (p: nat, q: nat)
    requires i < j < |agents| && agents[i].source == agents[j].source == Hardcoded
    ensures p < q < |HardcodedOf(agents)|
    ensures HardcodedOf(agents)[p] == agents[i] && HardcodedOf(agents)[q] == agents[j]
  {
    var n := |agents| - 1;
    if j < n {
      p, q := HardcodedInOrder(agents[..n], i, j);
    } else {
      p := HardcodedPosition(agents[..n], i);
      q := |HardcodedOf(agents[..n])|;
    }
  }

  lemma {:induction false} SlotsKeepAgents(l: ListState, ss: seq<P.Signal>)
    ensures Slots(l, ss).agents == l.agents
    decreases |ss|
  {
    if ss != [] {
      SlotsKeepAgents(Slot(l, ss[0]), ss[1..]);
    }
  }

  lemma {:induction false} FoundAgents(m: M.Monitor, info: AgentInformation)
    requires forall i | 0 <= i < |m.list.agents| :: m.list.agents[i].key != info.key
    ensures M.Step(m, M.AgentFound(info)).list.agents == m.list.agents + [info]
  {
    var added := AddAgent(m.list, info);
    var signals := P.ObserveSignals(m.provider, info.key);
    SlotsKeepAgents(added, signals);
  }

  /** Agents with new identities join the list in order. */
  lemma {:induction false} FoundAllAgents(m: M.Monitor, infos: seq<AgentInformation>)
    requires DistinctKeys(m.list.agents + infos)
    ensures FoundAll(m, infos).list.agents == m.list.agents + infos
    decreases |infos|
  {
    var agents := m.list.agents;
    if infos == [] {
      assert agents + infos == agents;
    } else {
      assert forall i | 0 <= i < |agents| :: (agents + infos)[i] == agents[i] && (agents + infos)[|agents|] == infos[0];
      FoundAgents(m, infos[0]);
      assert agents + infos == agents + [infos[0]] + infos[1..];
      FoundAllAgents(M.Step(m, M.AgentFound(infos[0])), infos[1..]);
    }
  }

  lemma {:induction false} AllAreStorable(agents: seq<AgentInformation>)
    requires forall a | a in agents :: a.source == Hardcoded && C.HostOk(a.key.host)
    ensures C.AllStorable(agents)
  {
    forall i | 0 <= i < |agents| ensures C.Storable(agents[i]) {
      assert agents[i] in agents;
    }
  }

  /**
   Whatever run the monitor has gone through, the agents its user added come back at the next start: the same
   ones, in the same order, and nothing else.
   */
  lemma {:induction false} HardcodedAgentsComeBack(m: M.Monitor, start: int)
    requires M.Reachable(m)
    requires forall a | a in m.list.agents && a.source == Hardcoded :: C.HostOk(a.key.host)
    ensures var hardcoded := HardcodedOf(m.list.agents);
            FoundAll(M.Initial(start), C.Reread(hardcoded)).list.agents == hardcoded
  {
    ReachableInv(m);
    var hardcoded := HardcodedOf(m.list.agents);
    HardcodedOfShape(m.list.agents);
    AllAreStorable(hardcoded);
    C.AgentsRoundTrip(hardcoded);
    assert [] + hardcoded == hardcoded;
    FoundAllAgents(M.Initial(start), hardcoded);
  }
}
