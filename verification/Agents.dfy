/** AgentInformation: who an agent is, and how the monitor came to know it. */
module Agents {
  type byte = x: int | 0 <= x < 256
  type Port = x: int | 0 <= x < 65536

  /** `Unnamed` is an enumeration value without an enumerator, as a cast from a stored number can produce. */
  datatype DetectionSource = ZeroConf | Hardcoded | Unnamed(code: int)

  /** What operator== and qHash look at; the name is given by its UTF-8 bytes, the host by its text form. */
  datatype AgentKey = AgentKey(name: seq<byte>, host: string, port: Port)

  datatype AgentInformation = AgentInformation(key: AgentKey, source: DetectionSource)

  function Keys(agents: seq<AgentInformation>): set<AgentKey> {
    set a | a in agents :: a.key
  }

  predicate DistinctKeys(agents: seq<AgentInformation>) {
    forall i, j | 0 <= i < j < |agents| :: agents[i].key != agents[j].key
  }

  /** std::find with operator==: the first row of an agent, or the length of the list. */
  function IndexOf(agents: seq<AgentInformation>, key: AgentKey): (i: nat)
    ensures i <= |agents|
    ensures i < |agents| ==> agents[i].key == key
    ensures forall j | 0 <= j < i :: agents[j].key != key
  {
    if agents == [] || agents[0].key == key then 0 else 1 + IndexOf(agents[1..], key)
  }
}
