/** Message types exchanged with the mesh controller (the protobuf package `pb`),
    reduced to the fields the controller reads or writes. */
module Proto {

  /** An unsigned 32-bit counter; arithmetic on it wraps explicitly (see Add32). */
  const U32Modulus: int := 0x1_0000_0000
  newtype uint32 = x: int | 0 <= x < 0x1_0000_0000

  /** Go's `a + b` on uint32: wraps around modulo 2^32. */
  function Add32(a: uint32, b: uint32): (r: uint32)
    ensures a as int + b as int < U32Modulus ==> r as int == a as int + b as int
    ensures a as int + b as int >= U32Modulus ==> r as int == a as int + b as int - U32Modulus
  {
    ((a as int + b as int) % U32Modulus) as uint32
  }

  /** Go's `uint32(n)` conversion of a non-negative int: keeps the low 32 bits. */
  function ToUint32(n: nat): (r: uint32)
    ensures n < U32Modulus ==> r as int == n
  {
    (n % U32Modulus) as uint32
  }

  /** The two-state authority classification of an agent. */
  datatype AgentRole = Operational | Strategic

  /** OS resource figures: reported load, or granted limits. */
  datatype OSResources = OSResources(cpuUsagePercent: real, memoryUsedBytes: nat, memoryTotalBytes: nat)

  datatype HandshakeRequest = HandshakeRequest(agentId: string, initialRole: AgentRole, capabilities: seq<string>)

  datatype HandshakeResponse = HandshakeResponse(sessionId: string, approved: bool, resourceLimits: OSResources)

  /** An agent action; the controller reads its agent id and reasoning chain. */
  datatype AgentAction = AgentAction(agentId: string, actionType: string, reasoningChain: string)

  datatype SearchResult = SearchResult(source: string, content: string, score: real)

  datatype SearchResponse = SearchResponse(results: seq<SearchResult>, reasoningContext: string)

  datatype SearchRequest = SearchRequest(agentId: string, query: string, maxResults: nat)
}
